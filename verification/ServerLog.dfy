/**
 A server that keeps the history of one channel as a log, and answers a request
 with the entries nearest its reference.  What such an answer looks like to the
 engine, entry by entry and as a whole.
 */
module ServerLog {
  import opened Wrappers
  import opened RequestQueue
  import opened CatchUp
  import D = Dedup
  import G = GapLedger
  import K = GapCoverage

  type Log = seq<K.Msg>

  predicate Sorted(log: Log) {
    forall i, j | 0 <= i <= j < |log| :: log[i].ts <= log[j].ts
  }

  /** Entries are in the order of time and have msgids of their own. */
  predicate ValidLog(log: Log) {
    Sorted(log) &&
    (forall m <- log :: m.msgid != "" && m.ts > 0) &&
    forall i, j | 0 <= i < |log| && 0 <= j < |log| && log[i].msgid == log[j].msgid :: i == j
  }

  function History(log: Log): set<K.Msg> {
    set m <- log
  }

  // ----- requests -----

  /** The entries below position `p` are those before the reference. */
  predicate UpTo(log: Log, r: Reference, p: nat) {
    match r
    case Msgid(id) => p < |log| && log[p].msgid == id
    case Timestamp(t) =>
      p <= |log| && (forall i | 0 <= i < p :: log[i].ts < t) && forall i | p <= i < |log| :: t <= log[i].ts
  }

  /** The entries from position `p` on are those after the reference. */
  predicate Beyond(log: Log, r: Reference, p: nat) {
    match r
    case Msgid(id) => 0 < p <= |log| && log[p - 1].msgid == id
    case Timestamp(t) =>
      p <= |log| && (forall i | 0 <= i < p :: log[i].ts <= t) && forall i | p <= i < |log| :: t < log[i].ts
  }

  /** The answer is `log[lo..hi]`, nearest the reference, and less than the
      limit only when that was all there was.  The log may go on growing: what
      came later than second `until` the server need not have had yet.  Of
      LATEST and AROUND it only matters that they leave nothing out between. */
  ghost predicate Serves(log: Log, req: Request, limit: int, until: int, lo: nat, hi: nat) {
    lo < hi <= |log| &&
    match req.kind
    case Latest => true
    case Before => req.reference.Some? && UpTo(log, req.reference.value, hi) && (lo == 0 || hi - lo >= limit)
    case After =>
      req.reference.Some? && Beyond(log, req.reference.value, lo) &&
      (hi - lo >= limit || forall i | hi <= i < |log| :: until <= log[i].ts)
    case Between =>
      req.reference.Some? && req.endRef.Some? &&
      (exists a: nat, b: nat | a <= b :: ServesBetween(log, req.reference.value, req.endRef.value, limit, lo, hi, a, b))
    case Around => true
  }

  /** BETWEEN, from the far reference up to the near one, or the other way. */
  predicate ServesBetween(log: Log, near: Reference, far: Reference, limit: int, lo: nat, hi: nat, a: nat, b: nat) {
    (Beyond(log, far, a) && UpTo(log, near, b) && a <= lo && hi == b && (lo == a || hi - lo >= limit)) ||
    (Beyond(log, near, a) && UpTo(log, far, b) && lo == a && hi <= b && (hi == b || hi - lo >= limit))
  }

  function TimeOfId(log: Log, id: string): int {
    if log == [] then 0 else if log[0].msgid == id then log[0].ts else TimeOfId(log[1..], id)
  }

  /** The second a reference stands for. */
  function TimeOf(log: Log, r: Reference): int {
    match r
    case Msgid(id) => TimeOfId(log, id)
    case Timestamp(t) => t
  }

  lemma {:induction false} TimeOfIdAt(log: Log, p: nat)
    requires p < |log| && forall i, j | 0 <= i < |log| && 0 <= j < |log| && log[i].msgid == log[j].msgid :: i == j
    ensures TimeOfId(log, log[p].msgid) == log[p].ts
  {
    if p > 0 {
      assert log[0].msgid != log[p].msgid;
      TimeOfIdAt(log[1..], p - 1);
    }
  }

  /** What comes before a reference is no newer than it, and the rest no older. */
  lemma BeforeInTime(log: Log, r: Reference, p: nat)
    requires ValidLog(log) && UpTo(log, r, p)
    ensures p <= |log|
    ensures forall i | 0 <= i < p :: log[i].ts <= TimeOf(log, r)
    ensures forall i | p <= i < |log| :: TimeOf(log, r) <= log[i].ts
  {
    if r.Msgid? {
      TimeOfIdAt(log, p);
    }
  }

  lemma AfterInTime(log: Log, r: Reference, p: nat)
    requires ValidLog(log) && Beyond(log, r, p)
    ensures p <= |log|
    ensures forall i | 0 <= i < p :: log[i].ts <= TimeOf(log, r)
    ensures forall i | p <= i < |log| :: TimeOf(log, r) <= log[i].ts
  {
    if r.Msgid? {
      TimeOfIdAt(log, p - 1);
    }
  }

  // ----- gap fills -----

  /** The requests a gap fill makes: BETWEEN, or one-sided from the side approached. */
  predicate FillShape(req: Request) {
    req.kind == Between || (req.kind == Before && req.gapDir < 0) || (req.kind == After && req.gapDir >= 0)
  }

  /** The row lies in what the fill asked about.  On the side approached its
      bound is the near reference or nearer; on the other, BETWEEN has a limit
      of its own. */
  predicate Asked(log: Log, req: Request, g: G.Gap) {
    req.reference.Some? &&
    if req.gapDir < 0 then
      g.end <= TimeOf(log, req.reference.value) && (req.endRef.Some? ==> TimeOf(log, req.endRef.value) <= g.start)
    else
      TimeOf(log, req.reference.value) <= g.start && (req.endRef.Some? ==> g.end <= TimeOf(log, req.endRef.value))
  }

  /** An answer to a fill that asked about the row has everything of the row
      nearest the side approached.  AFTER has no far bound: what it asks about
      ends where the server's history ended. */
  lemma FillAnswered(log: Log, req: Request, limit: int, until: int, lo: nat, hi: nat, g: G.Gap)
    requires ValidLog(log) && FillShape(req) && Serves(log, req, limit, until, lo, hi) && Asked(log, req, g) && g.start < g.end
    requires req.kind == After ==> g.end <= until
    ensures K.AnswersFill(History(log), req.gapDir, g.start, g.end, log[lo..hi], limit)
  {
    hide ValidLog;
    var first, last := FillEdges(log, req, limit, until, lo, hi, g);
    FillNearest(log, lo, hi, g, req.gapDir, limit, first, last);
  }

  /** Positions `first` to `last` hold the row's entries, and the answer starts
      on the side approached and is complete or full. */
  lemma FillEdges(log: Log, req: Request, limit: int, until: int, lo: nat, hi: nat, g: G.Gap) returns (first: nat, last: nat)
    requires ValidLog(log) && FillShape(req) && Serves(log, req, limit, until, lo, hi) && Asked(log, req, g) && g.start < g.end
    requires req.kind == After ==> g.end <= until
    ensures first <= last <= |log| && Sorted(log)
    ensures forall i | 0 <= i < |log| && g.start < log[i].ts < g.end :: first <= i < last
    ensures if req.gapDir < 0 then hi == last && (lo <= first || hi - lo >= limit)
            else lo == first && (hi >= last || hi - lo >= limit)
  {
    hide ValidLog, TimeOf;
    assert ValidLog(log);
    ValidIsSorted(log);
    if req.kind == Before {
      BeforeInTime(log, req.reference.value, hi);
      first, last := 0, hi;
    } else if req.kind == After {
      AfterInTime(log, req.reference.value, lo);
      first, last := lo, if hi - lo >= limit then |log| else hi;
    } else {
      var a: nat, b: nat :| a <= b && ServesBetween(log, req.reference.value, req.endRef.value, limit, lo, hi, a, b);
      first, last := a, b;
      BetweenEdges(log, req, limit, lo, hi, g, a, b);
    }
  }

  lemma ValidIsSorted(log: Log)
    requires ValidLog(log)
    ensures Sorted(log)
  {
  }

  lemma BetweenEdges(log: Log, req: Request, limit: int, lo: nat, hi: nat, g: G.Gap, a: nat, b: nat)
    requires ValidLog(log) && req.kind == Between && Asked(log, req, g) && g.start < g.end && req.endRef.Some?
    requires a <= b && lo < hi && ServesBetween(log, req.reference.value, req.endRef.value, limit, lo, hi, a, b)
    ensures b <= |log|
    ensures forall i | 0 <= i < |log| && g.start < log[i].ts < g.end :: a <= i < b
    ensures if req.gapDir < 0 then hi == b && (lo <= a || hi - lo >= limit)
            else lo == a && (hi >= b || hi - lo >= limit)
  {
    hide ValidLog, TimeOf;
    var near, far := req.reference.value, req.endRef.value;
    if Beyond(log, far, a) && UpTo(log, near, b) && a <= lo && hi == b && (lo == a || hi - lo >= limit) {
      AfterInTime(log, far, a);
      BeforeInTime(log, near, b);
      assert TimeOf(log, far) <= log[lo].ts <= TimeOf(log, near);
    } else {
      AfterInTime(log, near, a);
      BeforeInTime(log, far, b);
      assert TimeOf(log, near) <= log[lo].ts <= TimeOf(log, far);
    }
  }

  lemma FillNearest(log: Log, lo: nat, hi: nat, g: G.Gap, dir: int, limit: int, first: nat, last: nat)
    requires Sorted(log) && lo < hi <= |log| && first <= last <= |log|
    requires forall i | 0 <= i < |log| && g.start < log[i].ts < g.end :: first <= i < last
    requires if dir < 0 then hi == last && (lo <= first || hi - lo >= limit)
             else lo == first && (hi >= last || hi - lo >= limit)
    ensures K.AnswersFill(History(log), dir, g.start, g.end, log[lo..hi], limit)
  {
    var batch := log[lo..hi];
    forall i | lo <= i < hi ensures log[i] in batch {
      assert batch[i - lo] == log[i];
    }
    forall m <- History(log) | g.start < m.ts < g.end && m !in batch
      ensures |batch| >= limit && forall b <- batch :: if dir < 0 then m.ts <= b.ts else b.ts <= m.ts
    {
      var i :| 0 <= i < |log| && log[i] == m;
      forall b <- batch ensures if dir < 0 then m.ts <= b.ts else b.ts <= m.ts {
        var k :| 0 <= k < |batch| && batch[k] == b;
        assert log[lo + k] == b;
      }
    }
  }

  // ----- the batch as the engine sees it -----

  /** A plain entry: with msgid and timestamp, no context, and something to show. */
  function Entry(m: K.Msg): D.Message {
    D.Message(Some(m.msgid), m.ts, false, true)
  }

  function Wire(batch: seq<K.Msg>): seq<D.Message> {
    seq(|batch|, i requires 0 <= i < |batch| => Entry(batch[i]))
  }

  predicate Plain(log: Log, msgs: seq<D.Message>) {
    forall m <- msgs :: m.msgid.Some? && m == Entry(K.Msg(m.msgid.value, m.ts)) && K.Msg(m.msgid.value, m.ts) in log
  }

  /** A plain batch read back as history entries. */
  function Entries(msgs: seq<D.Message>): seq<K.Msg> {
    seq(|msgs|, i requires 0 <= i < |msgs| => K.Msg(if msgs[i].msgid.Some? then msgs[i].msgid.value else "", msgs[i].ts))
  }

  lemma WireOfEntries(log: Log, msgs: seq<D.Message>)
    requires Plain(log, msgs)
    ensures Wire(Entries(msgs)) == msgs
    ensures forall b <- Entries(msgs) :: b in log
  {
    forall i | 0 <= i < |msgs| ensures Wire(Entries(msgs))[i] == msgs[i] && Entries(msgs)[i] in log {
      assert msgs[i] in msgs;
    }
  }

  lemma WireTail(batch: seq<K.Msg>)
    requires batch != []
    ensures Wire(batch) == [Entry(batch[0])] + Wire(batch[1..])
  {
  }

  lemma WireSlice(batch: seq<K.Msg>, n: nat)
    requires n <= |batch|
    ensures Wire(batch)[..n] == Wire(batch[..n]) && Wire(batch)[n..] == Wire(batch[n..])
  {
  }

  lemma EntriesOfWire(batch: seq<K.Msg>)
    ensures Entries(Wire(batch)) == batch
  {
  }

  // sorting

  predicate InTime(msgs: seq<D.Message>) {
    forall i, j | 0 <= i <= j < |msgs| :: msgs[i].ts <= msgs[j].ts
  }

  lemma {:induction false} InsertSorts(m: D.Message, msgs: seq<D.Message>)
    requires InTime(msgs)
    ensures InTime(Insert(m, msgs)) && multiset(Insert(m, msgs)) == multiset(msgs) + multiset{m}
    ensures |Insert(m, msgs)| == |msgs| + 1
  {
    if msgs == [] || m.ts <= msgs[0].ts {
      assert multiset([m] + msgs) == multiset{m} + multiset(msgs);
    } else {
      InsertSorts(m, msgs[1..]);
      InsertedAbove(m, msgs);
      assert msgs == [msgs[0]] + msgs[1..];
      assert multiset(msgs) == multiset{msgs[0]} + multiset(msgs[1..]);
    }
  }

  lemma InsertedAbove(m: D.Message, msgs: seq<D.Message>)
    requires msgs != [] && InTime(msgs) && m.ts > msgs[0].ts && InTime(Insert(m, msgs[1..]))
    requires multiset(Insert(m, msgs[1..])) == multiset(msgs[1..]) + multiset{m}
    ensures InTime([msgs[0]] + Insert(m, msgs[1..]))
  {
    var rest := Insert(m, msgs[1..]);
    forall x <- rest ensures msgs[0].ts <= x.ts {
      assert x in multiset(rest);
    }
  }

  lemma {:induction false} SortSorts(msgs: seq<D.Message>)
    ensures InTime(SortByTime(msgs)) && multiset(SortByTime(msgs)) == multiset(msgs)
    ensures |SortByTime(msgs)| == |msgs|
  {
    if msgs != [] {
      SortSorts(msgs[1..]);
      InsertSorts(msgs[0], SortByTime(msgs[1..]));
      assert msgs == [msgs[0]] + msgs[1..];
    }
  }

  /** A batch that comes in the order of time is left as it is. */
  lemma {:induction false} SortedStays(msgs: seq<D.Message>)
    requires InTime(msgs)
    ensures SortByTime(msgs) == msgs
  {
    if msgs != [] {
      SortedStays(msgs[1..]);
      assert msgs == [msgs[0]] + msgs[1..];
    }
  }

  lemma SortedPlain(log: Log, msgs: seq<D.Message>)
    requires Plain(log, msgs)
    ensures Plain(log, SortByTime(msgs)) && |SortByTime(msgs)| == |msgs|
    ensures Sorted(Entries(SortByTime(msgs)))
  {
    SortSorts(msgs);
    var sorted := SortByTime(msgs);
    forall m <- sorted ensures m in msgs {
      assert m in multiset(sorted);
    }
    forall i, j | 0 <= i <= j < |sorted| ensures Entries(sorted)[i].ts <= Entries(sorted)[j].ts {
      assert sorted[i].ts <= sorted[j].ts;
    }
  }

  lemma {:induction false} WireCounts(batch: seq<K.Msg>)
    ensures D.RawCount(Wire(batch)) == |batch|
    ensures |CursorMsgids(Wire(batch))| == |batch|
    ensures forall i | 0 <= i < |batch| :: CursorMsgids(Wire(batch))[i] == batch[i].msgid
  {
    if batch != [] {
      WireTail(batch);
      var w := Wire(batch);
      assert w[1..] == Wire(batch[1..]);
      WireCounts(batch[1..]);
      assert CursorMsgids(w) == [batch[0].msgid] + CursorMsgids(w[1..]);
    }
  }

  // ----- what working it off leaves behind -----

  /** The session knows the message: it has shown it, or finds it stored. */
  predicate Knows(seen: D.Seen, m: K.Msg) {
    D.IsDuplicate(seen, m.msgid, m.ts)
  }

  predicate KnowsMore(seen: D.Seen, seen': D.Seen) {
    seen.known <= seen'.known && seen'.stored == seen.stored
  }

  lemma KnowsStill(seen: D.Seen, seen': D.Seen, m: K.Msg)
    requires KnowsMore(seen, seen') && Knows(seen, m)
    ensures Knows(seen', m)
  {
  }

  lemma ProcessKnows(t: D.Tally, m: K.Msg)
    requires m.msgid != ""
    ensures Knows(D.Process(t, Entry(m)).seen, m) && KnowsMore(t.seen, D.Process(t, Entry(m)).seen)
  {
    hide D.DedupKey;
  }

  /** Every entry worked off is known afterwards, and nothing is forgotten. */
  lemma {:induction false} FoldKnows(t: D.Tally, batch: seq<K.Msg>)
    requires forall b <- batch :: b.msgid != ""
    ensures KnowsMore(t.seen, D.Fold(t, Wire(batch)).seen)
    ensures forall b <- batch :: Knows(D.Fold(t, Wire(batch)).seen, b)
    decreases |batch|
  {
    hide Knows, D.Process;
    if batch != [] {
      WireTail(batch);
      assert Wire(batch)[1..] == Wire(batch[1..]);
      var t1 := D.Process(t, Entry(batch[0]));
      ProcessKnows(t, batch[0]);
      FoldKnows(t1, batch[1..]);
      KnowsStill(t1.seen, D.Fold(t, Wire(batch)).seen, batch[0]);
      assert batch == [batch[0]] + batch[1..];
    }
  }

  /** The edges of a batch in the order of time are its first and last entry. */
  lemma {:induction false} FoldEdges(t: D.Tally, batch: seq<K.Msg>)
    requires Sorted(batch) && forall b <- batch :: b.ts > 0
    requires t.newest >= 0 && (batch != [] ==> t.oldest <= batch[0].ts && t.newest <= batch[0].ts)
    requires t.oldest >= 0
    ensures batch != [] ==> D.Fold(t, Wire(batch)).newest == batch[|batch| - 1].ts
    ensures batch != [] ==> D.Fold(t, Wire(batch)).oldest == if t.oldest == 0 then batch[0].ts else t.oldest
    ensures batch == [] ==> D.Fold(t, Wire(batch)) == t
    decreases |batch|
  {
    hide D.Track, D.Shows;
    if batch != [] {
      WireTail(batch);
      assert Wire(batch)[1..] == Wire(batch[1..]);
      FoldEdges(D.Process(t, Entry(batch[0])), batch[1..]);
    }
  }
}
