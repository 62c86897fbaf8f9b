/**
 Coverage of the gap ledger.  For every server history and every run of gap
 fills and catch-up pages, a message inside a recorded hole is stored, or
 still lies strictly inside some row of the ledger.  Bounds are whole seconds,
 so a message that shares its second with a bound is set apart.
 */
module GapCoverage {
  import opened Wrappers
  import opened GapLedger

  datatype Msg = Msg(msgid: string, ts: int)

  /** The ledger and the store of one channel, against the server's history of
      it.  `tied` collects messages whose own row was given a bound in their
      second. */
  datatype World = World(channel: nat, history: set<Msg>, rows: seq<Gap>, stored: set<Msg>, tied: set<Msg>)

  /** The row that holds `m` is to have a bound in the very second of `m`. */
  predicate MeetsBound(rows: seq<Gap>, rows': seq<Gap>, channel: nat, m: Msg) {
    exists r, n | r in rows && n in rows' ::
      r.channel == channel && r.start < m.ts < r.end && n.id == r.id && (m.ts == n.start || m.ts == n.end)
  }

  function Moved(w: World, rows: seq<Gap>): World {
    w.(rows := rows, tied := w.tied + set m <- w.history | MeetsBound(w.rows, rows, w.channel, m))
  }

  predicate Accounted(w: World, m: Msg) {
    m in w.stored || m in w.tied || CoversTime(w.rows, w.channel, m.ts)
  }

  predicate LedgerTrue(w: World, owed: set<Msg>) {
    forall m <- owed :: Accounted(w, m)
  }

  /** The messages strictly inside a hole. */
  function Inside(history: set<Msg>, g: Gap): set<Msg> {
    set m <- history | g.start < m.ts < g.end
  }

  /** The world of one row, with nothing stored. */
  function Alone(history: set<Msg>, g: Gap): World {
    World(g.channel, history, [g], {}, {})
  }

  // ----- batches -----

  function Contents(batch: seq<Msg>): set<Msg> {
    set m <- batch
  }

  function Oldest(batch: seq<Msg>): (t: int)
    requires batch != []
    ensures (exists b <- batch :: b.ts == t) && forall b <- batch :: t <= b.ts
  {
    if |batch| == 1 then batch[0].ts
    else
      assert batch == [batch[0]] + batch[1..];
      if batch[0].ts <= Oldest(batch[1..]) then batch[0].ts else Oldest(batch[1..])
  }

  function Newest(batch: seq<Msg>): (t: int)
    requires batch != []
    ensures (exists b <- batch :: b.ts == t) && forall b <- batch :: b.ts <= t
  {
    if |batch| == 1 then batch[0].ts
    else
      assert batch == [batch[0]] + batch[1..];
      if batch[0].ts >= Newest(batch[1..]) then batch[0].ts else Newest(batch[1..])
  }

  function PageOf(batch: seq<Msg>): Page
    requires batch != []
  {
    Page(|batch|, Oldest(batch), Newest(batch), Some(batch[0].msgid), Some(batch[|batch| - 1].msgid))
  }

  predicate Genuine(history: set<Msg>, batch: seq<Msg>) {
    batch != [] && forall b <- batch :: b in history && b.ts > 0
  }

  /** The server was asked about the seconds between `lo` and `hi`: it sends
      what is nearest the side asked for, and stops short only at the limit. */
  predicate AnswersFill(history: set<Msg>, dir: int, lo: int, hi: int, batch: seq<Msg>, limit: int) {
    forall m <- history | lo < m.ts < hi && m !in batch ::
      |batch| >= limit && forall b <- batch :: if dir < 0 then m.ts <= b.ts else b.ts <= m.ts
  }

  /** The row is, or lies in, what was asked about. */
  predicate AskedAbout(g: Gap, lo: int, hi: int) {
    lo <= g.start && g.end <= hi
  }

  /** The server was asked for what comes before second `from`. */
  predicate AnswersBefore(history: set<Msg>, from: int, batch: seq<Msg>) {
    forall m <- history | m.ts < from && m !in batch :: forall b <- batch :: m.ts <= b.ts
  }

  // ----- one gap-fill reply -----

  function AfterFill(w: World, id: int, dir: int, batch: seq<Msg>, limit: int): World
    requires batch != []
  {
    Moved(w.(stored := w.stored + Contents(batch)), FillReply(w.rows, id, dir, PageOf(batch), limit))
  }

  lemma UntouchedRowStays(rows: seq<Gap>, id: int, dir: int, page: Page, limit: int, g: Gap)
    requires g in rows && g.id != id
    ensures g in FillReply(rows, id, dir, page, limit)
  {
    DeleteIn(rows, id, g);
    var f := if dir < 0 then (x: Gap) => Narrowed(x, 0, None, page.oldest, page.oldestMsgid)
             else (x: Gap) => Narrowed(x, page.newest, page.newestMsgid, 0, None);
    UpdateIn(rows, id, f, g);
    DeleteIn(Update(rows, id, f), id, g);
  }

  /** After a shrink the row is there with its new bounds, or it is gone and
      the new bounds met. */
  lemma ShrunkRow(rows: seq<Gap>, id: int, start: int, sm: Option<string>, end: int, em: Option<string>, g: Gap)
    requires Distinct(rows) && g in rows && g.id == id
    ensures var n := Narrowed(g, start, sm, end, em);
      if n.start >= n.end then true else n in Shrink(rows, id, start, sm, end, em)
  {
    var f := (x: Gap) => Narrowed(x, start, sm, end, em);
    UpdateIn(rows, id, f, f(g));
    UpdateDistinct(rows, id, f);
    FindUnique(Update(rows, id, f), f(g));
  }

  /** A message whose row goes on under its id is still inside it, or tied to
      its bound, or beyond it. */
  lemma MovedAccounts(w: World, w0: World, rows: seq<Gap>, g: Gap, n: Gap, m: Msg)
    requires w == Moved(w0, rows) && m in w0.history
    requires g in w0.rows && g.channel == w0.channel && g.start < m.ts < g.end
    requires n in rows && n.id == g.id && n.channel == g.channel && n.start <= m.ts <= n.end
    ensures Accounted(w, m)
  {
    if m.ts == n.start || m.ts == n.end {
      assert MeetsBound(w0.rows, rows, w0.channel, m);
    }
  }

  lemma FillCoversMessage(w: World, id: int, dir: int, lo: int, hi: int, batch: seq<Msg>, limit: int, g: Gap, m: Msg)
    requires Distinct(w.rows) && g in w.rows && g.id == id && g.channel == w.channel
    requires Genuine(w.history, batch) && AnswersFill(w.history, dir, lo, hi, batch, limit) && AskedAbout(g, lo, hi)
    requires m in w.history && g.start < m.ts < g.end
    ensures Accounted(AfterFill(w, id, dir, batch, limit), m)
  {
    hide Moved, FillReply;
    var w' := AfterFill(w, id, dir, batch, limit);
    var w0 := w.(stored := w.stored + Contents(batch));
    MovedStores(w0, FillReply(w.rows, id, dir, PageOf(batch), limit));
    if m !in batch {
      assert !Bridges(g, dir, PageOf(batch), limit);
      var n := MovedBoundStays(w, id, dir, batch, limit, g);
      MovedAccounts(w', w0, w'.rows, g, n, m);
    }
  }

  lemma MovedStores(w: World, rows: seq<Gap>)
    ensures Moved(w, rows).stored == w.stored && Moved(w, rows).rows == rows
    ensures Moved(w, rows).channel == w.channel && Moved(w, rows).history == w.history
    ensures w.tied <= Moved(w, rows).tied
  {
  }

  /** A reply that does not close the row leaves it with the bound moved. */
  lemma MovedBoundStays(w: World, id: int, dir: int, batch: seq<Msg>, limit: int, g: Gap) returns (n: Gap)
    requires batch != [] && Distinct(w.rows) && g in w.rows && g.id == id
    requires !Bridges(g, dir, PageOf(batch), limit) && g.start < g.end
    requires Oldest(batch) > 0
    ensures n in AfterFill(w, id, dir, batch, limit).rows && n.channel == g.channel && n.id == id
    ensures if dir < 0 then n.start == g.start && n.end == Oldest(batch)
            else n.start == Newest(batch) && n.end == g.end
  {
    FindUnique(w.rows, g);
    var page := PageOf(batch);
    n := if dir < 0 then Narrowed(g, 0, None, page.oldest, page.oldestMsgid)
         else Narrowed(g, page.newest, page.newestMsgid, 0, None);
    if dir < 0 {
      ShrunkRow(w.rows, id, 0, None, page.oldest, page.oldestMsgid, g);
    } else {
      ShrunkRow(w.rows, id, page.newest, page.newestMsgid, 0, None, g);
    }
  }

  /** A message whose row another row's event leaves alone stays accounted for. */
  lemma StillCovered(w: World, w': World, r: Gap, m: Msg)
    requires w'.channel == w.channel && r in w'.rows && r.channel == w.channel && r.start < m.ts < r.end
    ensures Accounted(w', m)
  {
  }

  /** A reply to a gap fill, on either side and by BETWEEN or by the one-sided
      fallback, keeps the ledger true as long as the row with its id lies in
      what was asked about. */
  lemma FillKeepsLedgerTrue(w: World, id: int, dir: int, lo: int, hi: int, batch: seq<Msg>, limit: int, owed: set<Msg>)
    requires Distinct(w.rows) && owed <= w.history && LedgerTrue(w, owed)
    requires Genuine(w.history, batch) && AnswersFill(w.history, dir, lo, hi, batch, limit)
    requires forall g <- w.rows | g.id == id :: g.channel == w.channel ==> AskedAbout(g, lo, hi)
    ensures LedgerTrue(AfterFill(w, id, dir, batch, limit), owed)
  {
    forall m <- owed ensures Accounted(AfterFill(w, id, dir, batch, limit), m) {
      if m !in w.stored && m !in w.tied {
        var r :| r in w.rows && r.channel == w.channel && r.start < m.ts < r.end;
        if r.id != id {
          UntouchedRowStays(w.rows, id, dir, PageOf(batch), limit, r);
          StillCovered(w, AfterFill(w, id, dir, batch, limit), r, m);
        } else {
          FillCoversMessage(w, id, dir, lo, hi, batch, limit, r, m);
        }
      }
    }
  }

  // ----- one catch-up page -----

  /** What of the row was neither sent nor stored is no newer than the page;
      how many messages the page holds does not matter. */
  predicate NearestEnd(w: World, g: Gap, batch: seq<Msg>) {
    forall m <- w.history | g.start < m.ts < g.end && m !in batch && m !in w.stored :: forall b <- batch :: m.ts <= b.ts
  }

  /** The page narrows the row; then the loop may take the hole for bridged
      (`stop`) and delete the row, or give up and mark it dead. */
  datatype PageEnd = GoOn | Stop | GiveUp

  function AfterPage(w: World, id: int, batch: seq<Msg>, pageEnd: PageEnd): World
    requires batch != []
  {
    var rows := PageReply(w.rows, id, PageOf(batch));
    Moved(w.(stored := w.stored + Contents(batch)),
          match pageEnd
          case GoOn => rows
          case Stop => Delete(rows, id)
          case GiveUp => SetState(rows, id, Dead))
  }

  lemma UntouchedRowStaysOnPage(w: World, id: int, batch: seq<Msg>, pageEnd: PageEnd, r: Gap)
    requires batch != [] && r in w.rows && r.id != id
    ensures r in AfterPage(w, id, batch, pageEnd).rows
  {
    hide Moved, SetState, MeetsBound;
    var page := PageOf(batch);
    var rows := PageReply(w.rows, id, page);
    OthersStayOnShrink(w.rows, id, page, r);
    DeleteIn(rows, id, r);
    UpdateIn(rows, id, (g: Gap) => g.(state := Dead), r);
    SetStateIs(rows, id);
    MovedStores(w.(stored := w.stored + Contents(batch)), rows);
    MovedStores(w.(stored := w.stored + Contents(batch)), Delete(rows, id));
    MovedStores(w.(stored := w.stored + Contents(batch)), SetState(rows, id, Dead));
  }

  lemma SetStateIs(rows: seq<Gap>, id: int)
    ensures SetState(rows, id, Dead) == Update(rows, id, (g: Gap) => g.(state := Dead))
  {
  }

  lemma OthersStayOnShrink(rows: seq<Gap>, id: int, page: Page, r: Gap)
    requires r in rows && r.id != id
    ensures r in PageReply(rows, id, page)
  {
    var f := (x: Gap) => Narrowed(x, 0, None, page.oldest, page.oldestMsgid);
    UpdateIn(rows, id, f, r);
    DeleteIn(Update(rows, id, f), id, r);
  }

  lemma PageCoversMessage(w: World, id: int, batch: seq<Msg>, pageEnd: PageEnd, g: Gap, m: Msg)
    requires Distinct(w.rows) && g in w.rows && g.id == id && id > 0 && g.channel == w.channel
    requires Genuine(w.history, batch) && NearestEnd(w, g, batch)
    requires m in w.history && g.start < m.ts < g.end
    requires pageEnd == Stop ==> Oldest(batch) <= g.start
    ensures Accounted(AfterPage(w, id, batch, pageEnd), m)
  {
    hide AfterPage;
    PageIsStored(w, id, batch, pageEnd);
    if m !in batch && m !in w.stored {
      assert m.ts <= Oldest(batch);
      var n := NarrowedRowStays(w, id, batch, pageEnd, g);
      var w' := AfterPage(w, id, batch, pageEnd);
      PageMoves(w, id, batch, pageEnd);
      MovedAccounts(w', w.(stored := w.stored + Contents(batch)), w'.rows, g, n, m);
    }
  }

  lemma PageIsStored(w: World, id: int, batch: seq<Msg>, pageEnd: PageEnd)
    requires batch != []
    ensures AfterPage(w, id, batch, pageEnd).stored == w.stored + Contents(batch)
  {
  }

  lemma PageMoves(w: World, id: int, batch: seq<Msg>, pageEnd: PageEnd)
    requires batch != []
    ensures AfterPage(w, id, batch, pageEnd) ==
            Moved(w.(stored := w.stored + Contents(batch)), AfterPage(w, id, batch, pageEnd).rows)
  {
    hide MeetsBound;
  }

  /** The narrowed row, dead or alive, with its end at the oldest message of the page. */
  lemma NarrowedRowStays(w: World, id: int, batch: seq<Msg>, pageEnd: PageEnd, g: Gap) returns (n: Gap)
    requires batch != [] && Distinct(w.rows) && g in w.rows && g.id == id && id > 0
    requires pageEnd != Stop && g.start < Oldest(batch) && Oldest(batch) > 0
    ensures n in AfterPage(w, id, batch, pageEnd).rows
    ensures n.id == id && n.channel == g.channel && n.start == g.start && n.end == Oldest(batch)
  {
    hide MeetsBound;
    var page := PageOf(batch);
    n := Narrowed(g, 0, None, page.oldest, page.oldestMsgid);
    ShrunkRow(w.rows, id, 0, None, page.oldest, page.oldestMsgid, g);
    var rows := PageReply(w.rows, id, page);
    assert n in rows;
    UpdateIn(rows, id, (x: Gap) => x.(state := Dead), n.(state := Dead));
    n := if pageEnd == GiveUp then n.(state := Dead) else n;
  }

  lemma PageKeepsLedgerTrue(w: World, id: int, batch: seq<Msg>, pageEnd: PageEnd, owed: set<Msg>)
    requires Distinct(w.rows) && id > 0 && owed <= w.history && LedgerTrue(w, owed)
    requires Genuine(w.history, batch)
    requires forall g <- w.rows | g.id == id && g.channel == w.channel ::
      NearestEnd(w, g, batch) && (pageEnd == Stop ==> Oldest(batch) <= g.start)
    ensures LedgerTrue(AfterPage(w, id, batch, pageEnd), owed)
  {
    hide NearestEnd, AfterPage;
    PageIsStored(w, id, batch, pageEnd);
    PageMoves(w, id, batch, pageEnd);
    forall m <- owed ensures Accounted(AfterPage(w, id, batch, pageEnd), m) {
      if m !in w.stored && m !in w.tied {
        var r :| r in w.rows && r.channel == w.channel && r.start < m.ts < r.end;
        if r.id != id {
          UntouchedRowStaysOnPage(w, id, batch, pageEnd, r);
          StillCovered(w, AfterPage(w, id, batch, pageEnd), r, m);
        } else {
          PageCoversMessage(w, id, batch, pageEnd, r, m);
        }
      }
    }
  }

  // ----- exactly when a batch keeps the ledger true -----

  lemma DeleteOnly(g: Gap)
    ensures Delete([g], g.id) == []
  {
    assert [g][1..] == [];
    assert Delete([], g.id) == [];
  }

  lemma ShrinkOnly(g: Gap, start: int, sm: Option<string>, end: int, em: Option<string>)
    ensures var n := Narrowed(g, start, sm, end, em);
      Shrink([g], g.id, start, sm, end, em) == if n.start >= n.end then [] else [n]
  {
    var f := (x: Gap) => Narrowed(x, start, sm, end, em);
    assert [g][1..] == [] && Update([], g.id, f) == [];
    assert Update([g], g.id, f) == [f(g)];
    assert Find([f(g)], g.id) == Some(f(g));
    DeleteOnly(f(g));
  }

  /** A stop on the only row of a table leaves none. */
  lemma StopEmptiesTheTable(history: set<Msg>, g: Gap, batch: seq<Msg>)
    requires batch != []
    ensures AfterPage(Alone(history, g), g.id, batch, Stop) == World(g.channel, history, [], Contents(batch), {})
  {
    hide Shrink, Delete;
    var page := PageOf(batch);
    var n := Narrowed(g, 0, None, page.oldest, page.oldestMsgid);
    ShrinkOnly(g, 0, None, page.oldest, page.oldestMsgid);
    DeleteOnly(g);
    DeleteOnly(n);
    DeleteNone(g.id);
    assert {} + Contents(batch) == Contents(batch);
  }

  lemma DeleteNone(id: int)
    ensures Delete([], id) == []
  {
  }

  /** The loop's stop test deletes the row.  That is honest for every server
      history exactly when the page reached the row's own start. */
  lemma StopIsHonestIffStartReached(g: Gap, oldest: int)
    requires g.id > 0 && 0 <= g.start && oldest > 0 && g.start + 1 < g.end
    ensures oldest <= g.start <==>
      (forall history: set<Msg>, batch: seq<Msg> |
         Genuine(history, batch) && NearestEnd(Alone(history, g), g, batch) && Oldest(batch) == oldest ::
         LedgerTrue(AfterPage(Alone(history, g), g.id, batch, Stop), Inside(history, g)))
  {
    if oldest <= g.start {
      forall history: set<Msg>, batch: seq<Msg> |
        Genuine(history, batch) && NearestEnd(Alone(history, g), g, batch) && Oldest(batch) == oldest
        ensures LedgerTrue(AfterPage(Alone(history, g), g.id, batch, Stop), Inside(history, g))
      {
        OnlyRowTrue(history, g);
        PageKeepsLedgerTrue(Alone(history, g), g.id, batch, Stop, Inside(history, g));
      }
    } else {
      StopLosesAMessage(g, oldest);
    }
  }

  lemma OnlyRowTrue(history: set<Msg>, g: Gap)
    ensures LedgerTrue(Alone(history, g), Inside(history, g))
  {
    assert g in [g];
  }

  lemma StopLosesAMessage(g: Gap, oldest: int)
    requires 0 <= g.start < oldest && g.start + 1 < g.end
    ensures exists history: set<Msg>, batch: seq<Msg> ::
      Genuine(history, batch) && NearestEnd(Alone(history, g), g, batch) && Oldest(batch) == oldest &&
      !LedgerTrue(AfterPage(Alone(history, g), g.id, batch, Stop), Inside(history, g))
  {
    hide AfterPage;
    var sent, missed := Msg("sent", oldest), Msg("missed", g.start + 1);
    var history, batch := {sent, missed}, [sent];
    StopEmptiesTheTable(history, g, batch);
    assert missed in Inside(history, g) && missed !in Contents(batch);
    assert !Accounted(World(g.channel, history, [], Contents(batch), {}), missed);
    assert Genuine(history, batch) && NearestEnd(Alone(history, g), g, batch) && Oldest(batch) == oldest;
    assert !LedgerTrue(AfterPage(Alone(history, g), g.id, batch, Stop), Inside(history, g));
  }

  /** A page that was asked for from second `from` on downwards narrows the row
      honestly, for every server history, exactly when it was asked for from
      the row's end or above. */
  lemma PageIsHonestIffFromEnd(g: Gap, from: int)
    requires g.id > 0 && 0 <= g.start && g.start + 1 < g.end && from >= 2
    ensures g.end <= from <==>
      (forall history: set<Msg>, batch: seq<Msg> | Genuine(history, batch) && AnswersBefore(history, from, batch) ::
         LedgerTrue(AfterPage(Alone(history, g), g.id, batch, GoOn), Inside(history, g)))
  {
    if g.end <= from {
      forall history: set<Msg>, batch: seq<Msg> | Genuine(history, batch) && AnswersBefore(history, from, batch)
        ensures LedgerTrue(AfterPage(Alone(history, g), g.id, batch, GoOn), Inside(history, g))
      {
        OnlyRowTrue(history, g);
        PageKeepsLedgerTrue(Alone(history, g), g.id, batch, GoOn, Inside(history, g));
      }
    } else {
      PageFromBelowLoses(g, from);
    }
  }

  lemma PageFromBelowLoses(g: Gap, from: int)
    requires g.id > 0 && 0 <= g.start && g.start + 1 < g.end && 2 <= from < g.end
    ensures exists history: set<Msg>, batch: seq<Msg> ::
      Genuine(history, batch) && AnswersBefore(history, from, batch) &&
      !LedgerTrue(AfterPage(Alone(history, g), g.id, batch, GoOn), Inside(history, g))
  {
    hide AfterPage;
    var sent, missed := Msg("sent", from - 1), Msg("missed", if g.start + 1 < from then from else g.start + 1);
    var history, batch := {sent, missed}, [sent];
    PageOnOnlyRow(history, g, batch);
    assert missed in Inside(history, g) && missed !in Contents(batch);
    assert Genuine(history, batch) && AnswersBefore(history, from, batch);
    assert !LedgerTrue(AfterPage(Alone(history, g), g.id, batch, GoOn), Inside(history, g));
  }

  /** After a page on the only row, what lies above the page is accounted for
      only when it was sent. */
  lemma PageOnOnlyRow(history: set<Msg>, g: Gap, batch: seq<Msg>)
    requires batch != [] && g.id > 0 && Oldest(batch) > 0
    ensures forall m | m !in batch && m.ts > Oldest(batch) && m.ts != g.start ::
      !Accounted(AfterPage(Alone(history, g), g.id, batch, GoOn), m)
  {
    hide Shrink;
    var page := PageOf(batch);
    ShrinkOnly(g, 0, None, page.oldest, page.oldestMsgid);
    var n := Narrowed(g, 0, None, page.oldest, page.oldestMsgid);
    forall m | m !in batch && m.ts > Oldest(batch) && m.ts != g.start
      ensures !Accounted(AfterPage(Alone(history, g), g.id, batch, GoOn), m)
    {
      assert m !in Contents(batch);
    }
  }

  /** A reply to a fill that asked about the seconds between `lo` and `hi` keeps
      the row with its id honest, for every server history, exactly when that
      row lies in what was asked about.  The limit is at least two because a
      limit of one leaves no short replies, so that a reply never closes a row
      whose far end it did not reach; `OneByOneIsHonestIff` is about that limit. */
  lemma FillIsHonestIffAsked(g: Gap, dir: int, lo: int, hi: int, limit: int)
    requires 0 <= lo && lo + 1 < hi && 0 <= g.start && g.start + 1 < g.end && limit >= 2
    ensures AskedAbout(g, lo, hi) <==>
      (forall history: set<Msg>, batch: seq<Msg> |
         Genuine(history, batch) && AnswersFill(history, dir, lo, hi, batch, limit) ::
         LedgerTrue(AfterFill(Alone(history, g), g.id, dir, batch, limit), Inside(history, g)))
  {
    if AskedAbout(g, lo, hi) {
      forall history: set<Msg>, batch: seq<Msg> |
        Genuine(history, batch) && AnswersFill(history, dir, lo, hi, batch, limit)
        ensures LedgerTrue(AfterFill(Alone(history, g), g.id, dir, batch, limit), Inside(history, g))
      {
        OnlyRowTrue(history, g);
        FillKeepsLedgerTrue(Alone(history, g), g.id, dir, lo, hi, batch, limit, Inside(history, g));
      }
    } else {
      FillOfOtherRowLoses(g, dir, lo, hi, limit);
    }
  }

  lemma FillOfOtherRowLoses(g: Gap, dir: int, lo: int, hi: int, limit: int)
    requires 0 <= lo && lo + 1 < hi && g.start + 1 < g.end && limit >= 2 && !AskedAbout(g, lo, hi)
    ensures exists history: set<Msg>, batch: seq<Msg> ::
      Genuine(history, batch) && AnswersFill(history, dir, lo, hi, batch, limit) &&
      !LedgerTrue(AfterFill(Alone(history, g), g.id, dir, batch, limit), Inside(history, g))
  {
    hide AfterFill;
    var sent, missed := Msg("sent", lo + 1), Msg("missed", if g.start < lo then g.start + 1 else g.end - 1);
    var history, batch := {sent, missed}, [sent];
    ShortReplyCloses(history, g, dir, batch, limit);
    assert missed in Inside(history, g) && missed !in Contents(batch);
    assert Genuine(history, batch) && AnswersFill(history, dir, lo, hi, batch, limit);
    assert !LedgerTrue(AfterFill(Alone(history, g), g.id, dir, batch, limit), Inside(history, g));
  }

  /** A reply below the limit deletes whatever row has the id. */
  lemma ShortReplyCloses(history: set<Msg>, g: Gap, dir: int, batch: seq<Msg>, limit: int)
    requires 0 < |batch| < limit
    ensures AfterFill(Alone(history, g), g.id, dir, batch, limit) == World(g.channel, history, [], Contents(batch), {})
  {
    DeleteOnly(g);
    assert Find([g], g.id) == Some(g);
    assert {} + Contents(batch) == Contents(batch);
  }

  /** The server sends nothing outside what was asked about. */
  predicate Within(batch: seq<Msg>, lo: int, hi: int) {
    forall b <- batch :: lo < b.ts < hi
  }

  /** With a server limit of one, a reply to a fill keeps the row with its id
      honest, for every server history, exactly when what was asked about
      starts at the row's bound on the side approached, or beyond it. */
  lemma OneByOneIsHonestIff(g: Gap, dir: int, lo: int, hi: int)
    requires 0 <= lo && lo + 1 < hi && 0 <= g.start && g.start + 1 < g.end
    ensures (if dir < 0 then g.end <= hi else lo <= g.start) <==>
      (forall history: set<Msg>, batch: seq<Msg> |
         Genuine(history, batch) && Within(batch, lo, hi) && AnswersFill(history, dir, lo, hi, batch, 1) ::
         LedgerTrue(AfterFill(Alone(history, g), g.id, dir, batch, 1), Inside(history, g)))
  {
    if if dir < 0 then g.end <= hi else lo <= g.start {
      forall history: set<Msg>, batch: seq<Msg> |
        Genuine(history, batch) && Within(batch, lo, hi) && AnswersFill(history, dir, lo, hi, batch, 1)
        ensures LedgerTrue(AfterFill(Alone(history, g), g.id, dir, batch, 1), Inside(history, g))
      {
        OneByOneKeeps(history, g, dir, lo, hi, batch);
      }
    } else {
      OneByOneLoses(g, dir, lo, hi);
    }
  }

  lemma OneByOneKeeps(history: set<Msg>, g: Gap, dir: int, lo: int, hi: int, batch: seq<Msg>)
    requires 0 <= lo && g.start < g.end && (if dir < 0 then g.end <= hi else lo <= g.start)
    requires Genuine(history, batch) && Within(batch, lo, hi) && AnswersFill(history, dir, lo, hi, batch, 1)
    ensures LedgerTrue(AfterFill(Alone(history, g), g.id, dir, batch, 1), Inside(history, g))
  {
    hide FillReply, Moved;
    var w := Alone(history, g);
    var w0, w' := w.(stored := w.stored + Contents(batch)), AfterFill(w, g.id, dir, batch, 1);
    MovedStores(w0, FillReply(w.rows, g.id, dir, PageOf(batch), 1));
    forall m <- Inside(history, g) ensures Accounted(w', m) {
      if m !in batch {
        assert if dir < 0 then m.ts <= Oldest(batch) else Newest(batch) <= m.ts;
        assert !Bridges(g, dir, PageOf(batch), 1);
        var n := MovedBoundStays(w, g.id, dir, batch, 1, g);
        MovedAccounts(w', w0, w'.rows, g, n, m);
      }
    }
  }

  lemma OneByOneLoses(g: Gap, dir: int, lo: int, hi: int)
    requires 0 <= lo && lo + 1 < hi && 0 <= g.start && g.start + 1 < g.end
    requires if dir < 0 then hi < g.end else g.start < lo
    ensures exists history: set<Msg>, batch: seq<Msg> ::
      Genuine(history, batch) && Within(batch, lo, hi) && AnswersFill(history, dir, lo, hi, batch, 1) &&
      !LedgerTrue(AfterFill(Alone(history, g), g.id, dir, batch, 1), Inside(history, g))
  {
    hide AfterFill;
    var missed := Msg("missed", if dir < 0 then g.end - 1 else g.start + 1);
    var sent := Msg("sent", lo + 1);
    var history, batch := {sent, missed}, [sent];
    FillOnOnlyRow(history, g, dir, batch);
    assert missed in Inside(history, g) && missed !in batch;
    assert Genuine(history, batch) && Within(batch, lo, hi) && AnswersFill(history, dir, lo, hi, batch, 1);
    assert !LedgerTrue(AfterFill(Alone(history, g), g.id, dir, batch, 1), Inside(history, g));
  }

  /** After a reply on the only row, what lies beyond its edge on the side
      approached is accounted for only when it was sent. */
  lemma FillOnOnlyRow(history: set<Msg>, g: Gap, dir: int, batch: seq<Msg>)
    requires batch != [] && Oldest(batch) > 0 && Newest(batch) > 0
    ensures forall m | m !in batch && g.start < m.ts < g.end && (if dir < 0 then m.ts > Oldest(batch) else m.ts < Newest(batch)) ::
      !Accounted(AfterFill(Alone(history, g), g.id, dir, batch, 1), m)
  {
    hide Shrink, Delete;
    var page := PageOf(batch);
    assert Find([g], g.id) == Some(g);
    DeleteOnly(g);
    ShrinkOnly(g, 0, None, page.oldest, page.oldestMsgid);
    ShrinkOnly(g, page.newest, page.newestMsgid, 0, None);
    forall m | m !in batch && g.start < m.ts < g.end && (if dir < 0 then m.ts > Oldest(batch) else m.ts < Newest(batch))
      ensures !Accounted(AfterFill(Alone(history, g), g.id, dir, batch, 1), m)
    {
      assert m !in Contents(batch);
    }
  }

  // ----- when the id of a fill was given to another row -----

  /** The row a folded row's id was given to. */
  function Reused(rows: seq<Gap>, hole: Gap, id: int): Gap {
    Absorb(rows, hole, hole).(id := id, attempts := 0, lastAttempt := 0)
  }

  /** A fill asked about row `g`; meanwhile `g` was folded into a recorded hole
      and its id given to the union.  The reply keeps the union honest, for
      every server history, exactly when the union is no larger than `g`.
      (A limit of one leaves no short replies: `OneByOneIsHonestIff`.) */
  lemma ReusedFillIsHonestIff(rows: seq<Gap>, hole: Gap, g: Gap, dir: int, limit: int)
    requires Recordable(hole) && g in rows && Touches(g, hole) && Record(rows, hole).1 == g.id
    requires 0 <= g.start && g.start + 1 < g.end && limit >= 2
    requires forall r <- rows | Touches(r, hole) :: 0 <= r.start
    ensures var u := Reused(rows, hole, g.id);
      Find(Record(rows, hole).0, g.id) == Some(u) &&
      ((forall history: set<Msg>, batch: seq<Msg> |
          Genuine(history, batch) && AnswersFill(history, dir, g.start, g.end, batch, limit) ::
          LedgerTrue(AfterFill(Alone(history, u), u.id, dir, batch, limit), Inside(history, u)))
       <==> u.start == g.start && u.end == g.end)
  {
    hide Record, Absorb, Touches, AfterFill, LedgerTrue, Inside, AnswersFill, Genuine;
    var u := Reused(rows, hole, g.id);
    RecordFinds(rows, hole);
    AbsorbSpans(rows, hole, hole);
    AbsorbWithin(rows, hole, hole, 0, u.end);
    FillIsHonestIffAsked(u, dir, g.start, g.end, limit);
  }

  /** A reply below the limit deletes whatever row has the id: what it did not
      bring, and no other row covers, is lost. */
  lemma ShortReplyLoses(w: World, id: int, dir: int, batch: seq<Msg>, limit: int, m: Msg)
    requires 0 < |batch| < limit && Distinct(w.rows) && m !in batch && m !in w.stored && m !in w.tied
    requires Find(w.rows, id).Some?
    requires forall r <- w.rows | r.id != id :: !(r.channel == w.channel && r.start < m.ts < r.end)
    ensures !Accounted(AfterFill(w, id, dir, batch, limit), m)
  {
    hide MeetsBound;
    var w' := AfterFill(w, id, dir, batch, limit);
    assert w'.rows == Delete(w.rows, id);
    forall r | r in w'.rows ensures r in w.rows && r.id != id {
      DeleteIn(w.rows, id, r);
    }
    NotTied(w, w'.rows, id, m);
    assert m !in Contents(batch);
  }

  lemma NotTied(w: World, rows: seq<Gap>, id: int, m: Msg)
    requires forall r | r in rows :: r in w.rows && r.id != id
    requires forall r <- w.rows | r.id != id :: !(r.channel == w.channel && r.start < m.ts < r.end)
    ensures !MeetsBound(w.rows, rows, w.channel, m)
  {
  }

  // ----- every run -----

  datatype Event =
    | Witness(hole: Gap)
    | Fill(id: int, dir: int, lo: int, hi: int, reply: seq<Msg>, limit: int)
    | CatchUpPage(id: int, page: seq<Msg>, pageEnd: PageEnd)
    | StoreSome(msgs: set<Msg>)
    | MarkDead(id: int)
    | ForgetMsgids(id: int)
    | Attempt(id: int, now: int)

  /** What a run may contain: genuine batches that answer what was asked, and
      rows of this channel that lie in it; a stop only once the row's start is
      reached.  (`CatchUpLedger` derives this from the engine's own runs.) */
  predicate Possible(w: World, e: Event) {
    match e
    case Fill(id, dir, lo, hi, batch, limit) =>
      Genuine(w.history, batch) && AnswersFill(w.history, dir, lo, hi, batch, limit) &&
      forall g <- w.rows | g.id == id :: g.channel == w.channel ==> AskedAbout(g, lo, hi)
    case CatchUpPage(id, batch, pageEnd) =>
      Genuine(w.history, batch) && id > 0 &&
      forall g <- w.rows | g.id == id && g.channel == w.channel ::
        NearestEnd(w, g, batch) && (pageEnd == Stop ==> Oldest(batch) <= g.start)
    case _ => true
  }

  function After(w: World, e: Event): World
    requires e.Fill? ==> e.reply != []
    requires e.CatchUpPage? ==> e.page != []
  {
    match e
    case Witness(hole) => Moved(w, Record(w.rows, hole).0)
    case Fill(id, dir, _, _, batch, limit) => AfterFill(w, id, dir, batch, limit)
    case CatchUpPage(id, batch, pageEnd) => AfterPage(w, id, batch, pageEnd)
    case StoreSome(msgs) => w.(stored := w.stored + msgs)
    case MarkDead(id) => Moved(w, SetState(w.rows, id, Dead))
    case ForgetMsgids(id) => Moved(w, DropMsgids(w.rows, id))
    case Attempt(id, now) => Moved(w, Touch(w.rows, id, now))
  }

  /** The messages an event puts on the ledger's account. */
  function NewlyOwed(w: World, e: Event): set<Msg> {
    if e.Witness? && e.hole.channel == w.channel && Recordable(e.hole) then Inside(w.history, e.hole) else {}
  }

  predicate PossibleRun(w: World, run: seq<Event>)
    decreases |run|
  {
    run == [] || (Possible(w, run[0]) && PossibleRun(After(w, run[0]), run[1..]))
  }

  function AfterRun(w: World, run: seq<Event>): World
    requires PossibleRun(w, run)
    decreases |run|
  {
    if run == [] then w else AfterRun(After(w, run[0]), run[1..])
  }

  function Owed(w: World, run: seq<Event>): set<Msg>
    requires PossibleRun(w, run)
    decreases |run|
  {
    if run == [] then {} else NewlyOwed(w, run[0]) + Owed(After(w, run[0]), run[1..])
  }

  /** Changing a row in place without moving its bounds keeps the ledger true. */
  lemma InPlaceKeepsLedgerTrue(w: World, owed: set<Msg>, id: int, f: Gap -> Gap)
    requires LedgerTrue(w, owed)
    requires forall g: Gap :: Spans(f(g), g)
    ensures LedgerTrue(Moved(w, Update(w.rows, id, f)), owed)
  {
    hide MeetsBound;
    var w' := Moved(w, Update(w.rows, id, f));
    forall m <- owed ensures Accounted(w', m) {
      if m !in w.stored && m !in w.tied {
        var r :| r in w.rows && r.channel == w.channel && r.start < m.ts < r.end;
        UpdateIn(w.rows, id, f, r);
        UpdateIn(w.rows, id, f, f(r));
        assert Spans(f(r), r);
        assert r in w'.rows || f(r) in w'.rows;
      }
    }
  }

  /** A recorded hole is added to the account, and nothing is uncovered. */
  lemma WitnessKeepsLedgerTrue(w: World, owed: set<Msg>, hole: Gap)
    requires LedgerTrue(w, owed)
    ensures LedgerTrue(Moved(w, Record(w.rows, hole).0), owed + NewlyOwed(w, Witness(hole)))
  {
    hide MeetsBound, Record;
    if Recordable(hole) {
      RecordKeepsCover(w.rows, hole);
      var rows := Record(w.rows, hole).0;
      forall m <- owed ensures Accounted(Moved(w, rows), m) {
        if m !in w.stored && m !in w.tied {
          var r :| r in w.rows && r.channel == w.channel && r.start < m.ts < r.end;
          var r' :| r' in rows && Spans(r', r);
        }
      }
    } else {
      RefusedRecord(w.rows, hole);
    }
  }

  lemma RefusedRecord(rows: seq<Gap>, hole: Gap)
    requires !Recordable(hole)
    ensures Record(rows, hole) == (rows, -1)
  {
  }

  lemma EventKeepsLedgerTrue(w: World, owed: set<Msg>, e: Event)
    requires WellFormed(w.rows) && owed <= w.history && LedgerTrue(w, owed) && Possible(w, e)
    ensures LedgerTrue(After(w, e), owed + NewlyOwed(w, e))
  {
    hide Moved, Record, AfterFill, AfterPage;
    assert owed + {} == owed;
    match e {
      case Witness(hole) => WitnessKeepsLedgerTrue(w, owed, hole);
      case Fill(id, dir, lo, hi, batch, limit) => FillKeepsLedgerTrue(w, id, dir, lo, hi, batch, limit, owed);
      case CatchUpPage(id, batch, pageEnd) => PageKeepsLedgerTrue(w, id, batch, pageEnd, owed);
      case StoreSome(msgs) =>
      case MarkDead(id) => InPlaceKeepsLedgerTrue(w, owed, id, (g: Gap) => g.(state := Dead));
      case ForgetMsgids(id) =>
        InPlaceKeepsLedgerTrue(w, owed, id,
          (g: Gap) => g.(startMsgid := None, endMsgid := None, attempts := 0, lastAttempt := 0));
      case Attempt(id, now) =>
        InPlaceKeepsLedgerTrue(w, owed, id,
          (g: Gap) => g.(attempts := g.attempts + 1, lastAttempt := now));
    }
  }

  lemma SameHistory(w: World, e: Event)
    requires e.Fill? ==> e.reply != []
    requires e.CatchUpPage? ==> e.page != []
    ensures After(w, e).history == w.history && After(w, e).channel == w.channel
  {
    hide MeetsBound;
  }

  /** Over every run of batches, on every server history: each message strictly
      inside a hole the run recorded is stored, shares its second with the
      bound its own row was given, or still lies strictly inside a row; and no
      row's bounds ever cross.  (A run may stop after any batch.) */
  lemma {:induction false} LedgerCoversHistory(w: World, owed: set<Msg>, run: seq<Event>)
    requires WellFormed(w.rows) && owed <= w.history && LedgerTrue(w, owed)
    requires PossibleRun(w, run)
    ensures WellFormed(AfterRun(w, run).rows)
    ensures LedgerTrue(AfterRun(w, run), owed + Owed(w, run))
    decreases |run|
  {
    hide After, LedgerTrue, WellFormed, Possible;
    if run == [] {
      assert owed + Owed(w, run) == owed;
    } else {
      var e := run[0];
      PossibleIsWellFormed(w, e);
      SameHistory(w, e);
      EventKeepsLedgerTrue(w, owed, e);
      EventKeepsWellFormed(w, e);
      var owed' := owed + NewlyOwed(w, e);
      LedgerCoversHistory(After(w, e), owed', run[1..]);
      assert owed' + Owed(After(w, e), run[1..]) == owed + Owed(w, run);
    }
  }

  lemma PossibleIsWellFormed(w: World, e: Event)
    requires Possible(w, e)
    ensures (e.Fill? ==> e.reply != []) && (e.CatchUpPage? ==> e.page != [])
  {
  }

  lemma EventKeepsWellFormed(w: World, e: Event)
    requires WellFormed(w.rows)
    requires e.Fill? ==> e.reply != []
    requires e.CatchUpPage? ==> e.page != []
    ensures WellFormed(After(w, e).rows)
  {
    match e {
      case Witness(hole) => RecordWellFormed(w.rows, hole);
      case Fill(id, dir, _, _, batch, limit) => FillWellFormed(w.rows, id, dir, PageOf(batch), limit);
      case CatchUpPage(id, batch, pageEnd) =>
        PageWellFormed(w.rows, id, PageOf(batch));
        var rows := PageReply(w.rows, id, PageOf(batch));
        DeleteWellFormed(rows, id);
        InPlaceWellFormed(rows, id, (g: Gap) => g.(state := Dead));
      case StoreSome(msgs) =>
      case MarkDead(id) => InPlaceWellFormed(w.rows, id, (g: Gap) => g.(state := Dead));
      case ForgetMsgids(id) =>
        InPlaceWellFormed(w.rows, id,
          (g: Gap) => g.(startMsgid := None, endMsgid := None, attempts := 0, lastAttempt := 0));
      case Attempt(id, now) =>
        InPlaceWellFormed(w.rows, id, (g: Gap) => g.(attempts := g.attempts + 1, lastAttempt := now));
    }
  }

  /** A gap fill by msgid from the end of a hole.  `times` are the server's
      timestamps in order; the hole lies between positions `lo` and `hi`, and
      the server sends its last `limit` messages.  The row is closed although
      messages remain unsent exactly when there are more than `limit` of them
      and the oldest one sent shares its second with the start bound. */
  lemma TieClosesEarlyIff(times: seq<int>, lo: nat, hi: nat, limit: nat, g: Gap)
    requires lo + 1 < hi < |times| && limit >= 1
    requires forall i, j | 0 <= i <= j < |times| :: 0 < times[i] <= times[j]
    requires g.start == times[lo] && g.end == times[hi]
    ensures
      var first := if hi - limit > lo + 1 then hi - limit else lo + 1;
      var page := GapLedger.Page(hi - first, times[first], times[hi - 1], None, None);
      Bridges(g, -1, page, limit) && first > lo + 1 <==> hi - lo - 1 > limit && times[hi - limit] == times[lo]
  {
    if hi - lo - 1 > limit {
      assert times[lo] <= times[hi - limit];
    }
  }
}
