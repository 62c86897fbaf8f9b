/**
 Batch messages, duplicate suppression and chunked processing.  A batch is
 worked off at most CHUNK_SIZE entries at a time; the session remembers what
 it has shown as keys made of msgid and timestamp.
 */
module Dedup {
  import opened Wrappers

  const CHUNK_SIZE: nat := 50

  datatype Message = Message(msgid: Option<string>, ts: int, context: bool, hasCommand: bool)

  /** `known` is the session's key table, `stored` the (msgid, timestamp) rows
      of its channel in the scrollback database. */
  datatype Seen = Seen(known: set<string>, stored: set<(string, int)>)

  function Digit(d: nat): (c: char)
    requires d < 10
    ensures '0' <= c <= '9'
  {
    '0' + d as char
  }

  /** The decimal digits of a number, as "%lld" prints it. */
  function Decimal(n: nat): string {
    if n < 10 then [Digit(n)] else Decimal(n / 10) + [Digit(n % 10)]
  }

  /** Key of one message: msgid alone when there is no timestamp. */
  function DedupKey(msgid: string, ts: int): string {
    if ts > 0 then msgid + "@" + Decimal(ts) else msgid
  }

  predicate IsDuplicate(seen: Seen, msgid: string, ts: int) {
    msgid != "" &&
    (DedupKey(msgid, ts) in seen.known ||
     if ts == 0 then exists row <- seen.stored :: row.0 == msgid else (msgid, ts) in seen.stored)
  }

  /** True when the message is shown; false for a duplicate or an entry with no command. */
  predicate Shows(seen: Seen, m: Message) {
    m.hasCommand && !(m.msgid.Some? && IsDuplicate(seen, m.msgid.value, m.ts))
  }

  function Track(seen: Seen, m: Message): Seen {
    if Shows(seen, m) && m.msgid.Some? && m.msgid.value != ""
    then seen.(known := seen.known + {DedupKey(m.msgid.value, m.ts)})
    else seen
  }

  /** What processing a batch has produced so far. */
  datatype Tally = Tally(seen: Seen, shown: seq<Message>, oldest: int, newest: int)

  function Process(t: Tally, m: Message): Tally {
    Tally(Track(t.seen, m),
          if Shows(t.seen, m) then t.shown + [m] else t.shown,
          if m.ts > 0 && (t.oldest == 0 || m.ts < t.oldest) then m.ts else t.oldest,
          if m.ts > 0 && m.ts > t.newest then m.ts else t.newest)
  }

  /** One pass over a whole list. */
  function Fold(t: Tally, msgs: seq<Message>): Tally
    decreases |msgs|
  {
    if msgs == [] then t else Fold(Process(t, msgs[0]), msgs[1..])
  }

  function ChunkLength(remaining: seq<Message>): (n: nat)
    ensures n <= |remaining| && n <= CHUNK_SIZE
    ensures n == |remaining| || n == CHUNK_SIZE
  {
    if |remaining| < CHUNK_SIZE then |remaining| else CHUNK_SIZE
  }

  /** The timer ticks of the chunked path: one chunk per tick until none remain. */
  function RunTicks(t: Tally, remaining: seq<Message>): Tally
    decreases |remaining|
  {
    var n := ChunkLength(remaining);
    var t' := Fold(t, remaining[..n]);
    if remaining[n..] == [] then t' else RunTicks(t', remaining[n..])
  }

  // ----- chunked equals whole -----

  lemma {:induction false} FoldSplit(t: Tally, msgs: seq<Message>, n: nat)
    requires n <= |msgs|
    ensures Fold(t, msgs) == Fold(Fold(t, msgs[..n]), msgs[n..])
    decreases |msgs|
  {
    if n == 0 {
      assert msgs[..0] == [] && msgs[0..] == msgs;
    } else {
      FoldSplit(Process(t, msgs[0]), msgs[1..], n - 1);
      assert msgs[..n][1..] == msgs[1..][..n - 1];
      assert msgs[1..][n - 1..] == msgs[n..];
    }
  }

  /** Working a batch off chunk by chunk gives exactly what one pass gives:
      the same messages shown, the same bounds, the same keys remembered. */
  lemma {:induction false} ChunkedEqualsWhole(t: Tally, msgs: seq<Message>)
    ensures RunTicks(t, msgs) == Fold(t, msgs)
    decreases |msgs|
  {
    var n := ChunkLength(msgs);
    FoldSplit(t, msgs, n);
    if msgs[n..] != [] {
      ChunkedEqualsWhole(Fold(t, msgs[..n]), msgs[n..]);
    }
  }

  function RawCount(msgs: seq<Message>): nat {
    if msgs == [] then 0 else (if msgs[0].context then 0 else 1) + RawCount(msgs[1..])
  }

  /** A list of entries that carry no msgid: nothing of it is ever suppressed. */
  function Unmarked(n: nat): seq<Message> {
    seq(n, _ => Message(None, 1, true, true))
  }

  lemma {:induction false} UnmarkedAllShown(t: Tally, n: nat)
    ensures |Fold(t, Unmarked(n)).shown| == |t.shown| + n
    ensures RawCount(Unmarked(n)) == 0
    decreases n
  {
    if n != 0 {
      var m := Unmarked(n)[0];
      UnmarkedAllShown(Process(t, m), n - 1);
      assert Unmarked(n)[1..] == Unmarked(n - 1);
    }
  }

  /** The synchronous path runs a single chunk.  It is chosen by the number of
      real entries, so context entries can push a batch over one chunk.  The
      path is complete for every list of a given length exactly when that
      length is at most one chunk; beyond it the tail is not looked at, as a
      list made of context entries alone shows. */
  lemma SyncPathCompleteIffOneChunk(n: nat)
    ensures n <= CHUNK_SIZE <==>
            (forall t: Tally, msgs: seq<Message> | |msgs| == n && RawCount(msgs) <= CHUNK_SIZE ::
               Fold(t, msgs[..ChunkLength(msgs)]) == Fold(t, msgs))
  {
    if n <= CHUNK_SIZE {
      forall t: Tally, msgs: seq<Message> | |msgs| == n && RawCount(msgs) <= CHUNK_SIZE
        ensures Fold(t, msgs[..ChunkLength(msgs)]) == Fold(t, msgs)
      {
        assert msgs[..ChunkLength(msgs)] == msgs;
      }
    } else {
      var t := Tally(Seen({}, {}), [], 0, 0);
      var msgs := Unmarked(n);
      UnmarkedAllShown(t, n);
      UnmarkedAllShown(t, CHUNK_SIZE);
      assert msgs[..ChunkLength(msgs)] == Unmarked(CHUNK_SIZE);
      assert Fold(t, msgs[..ChunkLength(msgs)]) != Fold(t, msgs);
    }
  }

  // ----- the tally means what it says -----

  /** `oldest` is the least positive timestamp of `msgs`, 0 when there is none. */
  predicate IsOldest(oldest: int, msgs: seq<Message>) {
    if oldest == 0 then forall m <- msgs :: m.ts <= 0
    else oldest > 0 && (exists m <- msgs :: m.ts == oldest) && forall m <- msgs :: m.ts > 0 ==> oldest <= m.ts
  }

  /** `newest` is the greatest positive timestamp of `msgs`, 0 when there is none. */
  predicate IsNewest(newest: int, msgs: seq<Message>) {
    newest >= 0 && (forall m <- msgs :: m.ts <= newest) && (newest > 0 ==> exists m <- msgs :: m.ts == newest)
  }

  lemma BoundsAfterOne(t: Tally, before: seq<Message>, m: Message)
    requires IsOldest(t.oldest, before) && IsNewest(t.newest, before)
    ensures IsOldest(Process(t, m).oldest, before + [m])
    ensures IsNewest(Process(t, m).newest, before + [m])
  {
    assert m in before + [m];
    assert forall x :: x in before + [m] <==> x in before || x == m;
  }

  /** Folding over a batch leaves the least and the greatest positive timestamp. */
  lemma {:induction false} TallyBounds(t: Tally, before: seq<Message>, msgs: seq<Message>)
    requires IsOldest(t.oldest, before) && IsNewest(t.newest, before)
    ensures IsOldest(Fold(t, msgs).oldest, before + msgs)
    ensures IsNewest(Fold(t, msgs).newest, before + msgs)
    decreases |msgs|
  {
    hide IsOldest, IsNewest;
    if msgs == [] {
      assert before + msgs == before;
    } else {
      var m := msgs[0];
      BoundsAfterOne(t, before, m);
      TallyBounds(Process(t, m), before + [m], msgs[1..]);
      assert before + [m] + msgs[1..] == before + msgs;
    }
  }

  // ----- shown once -----

  predicate Keyed(m: Message) {
    m.msgid.Some? && m.msgid.value != "" && m.ts > 0
  }

  /** No two entries of the log with a msgid and a positive timestamp agree in both. */
  predicate NoRepeat(log: seq<Message>) {
    forall i, j | 0 <= i < j < |log| && Keyed(log[i]) && Keyed(log[j]) ::
      (log[i].msgid, log[i].ts) != (log[j].msgid, log[j].ts)
  }

  predicate Remembered(t: Tally) {
    forall m <- t.shown | Keyed(m) :: DedupKey(m.msgid.value, m.ts) in t.seen.known
  }

  lemma ProcessShowsOnce(t: Tally, m: Message)
    requires NoRepeat(t.shown) && Remembered(t)
    ensures NoRepeat(Process(t, m).shown) && Remembered(Process(t, m))
  {
    var log := Process(t, m).shown;
    forall i, j | 0 <= i < j < |log| && Keyed(log[i]) && Keyed(log[j])
      ensures (log[i].msgid, log[i].ts) != (log[j].msgid, log[j].ts)
    {
      if j == |t.shown| {
        assert log[i] in t.shown;
      }
    }
  }

  /** A run of batches on one session: the bounds start afresh with every
      batch, what has been shown and remembered carries over. */
  function RunBatches(t: Tally, batches: seq<seq<Message>>): Tally
    decreases |batches|
  {
    if batches == [] then t
    else RunBatches(Fold(t.(oldest := 0, newest := 0), batches[0]), batches[1..])
  }

  lemma {:induction false} FoldShowsOnce(t: Tally, msgs: seq<Message>)
    requires NoRepeat(t.shown) && Remembered(t)
    ensures NoRepeat(Fold(t, msgs).shown) && Remembered(Fold(t, msgs))
    decreases |msgs|
  {
    if msgs != [] {
      ProcessShowsOnce(t, msgs[0]);
      FoldShowsOnce(Process(t, msgs[0]), msgs[1..]);
    }
  }

  /** Over every sequence of batches, however they overlap, nothing with a
      msgid and a positive timestamp is shown twice. */
  lemma {:induction false} ShownAtMostOnce(t: Tally, batches: seq<seq<Message>>)
    requires NoRepeat(t.shown) && Remembered(t)
    ensures NoRepeat(RunBatches(t, batches).shown)
    decreases |batches|
  {
    if batches != [] {
      var t0 := t.(oldest := 0, newest := 0);
      FoldShowsOnce(t0, batches[0]);
      ShownAtMostOnce(Fold(t0, batches[0]), batches[1..]);
    }
  }

  // ----- the key is injective, so nothing else is suppressed -----

  lemma {:induction false} DecimalInjective(a: nat, b: nat)
    requires Decimal(a) == Decimal(b)
    ensures a == b
    decreases a
  {
    var da, db := Decimal(a), Decimal(b);
    DecimalShape(a);
    DecimalShape(b);
    assert da[|da| - 1] == Digit(a % 10) && db[|db| - 1] == Digit(b % 10);
    if a >= 10 {
      assert b >= 10;
      assert da[..|da| - 1] == Decimal(a / 10) && db[..|db| - 1] == Decimal(b / 10);
      DecimalInjective(a / 10, b / 10);
    }
  }

  lemma {:induction false} DecimalShape(n: nat)
    ensures '@' !in Decimal(n)
    ensures |Decimal(n)| >= 1 && (|Decimal(n)| == 1 <==> n < 10)
  {
    if n >= 10 {
      DecimalShape(n / 10);
    }
  }

  lemma LastAtIsTheSeparator(id: string, digits: string, i: nat)
    requires '@' !in digits && i < |id + "@" + digits| && (id + "@" + digits)[i] == '@'
    ensures i <= |id|
  {
    forall k | |id| < k < |id + "@" + digits| ensures (id + "@" + digits)[k] != '@' {
      assert (id + "@" + digits)[k] == digits[k - |id| - 1];
    }
  }

  /** The text after the last '@' is the timestamp, so two keys with positive
      timestamps agree only for the same message. */
  lemma KeyInjective(id1: string, ts1: int, id2: string, ts2: int)
    requires ts1 > 0 && ts2 > 0
    ensures DedupKey(id1, ts1) == DedupKey(id2, ts2) <==> id1 == id2 && ts1 == ts2
  {
    var d1, d2 := Decimal(ts1), Decimal(ts2);
    var k1, k2 := id1 + "@" + d1, id2 + "@" + d2;
    DecimalShape(ts1);
    DecimalShape(ts2);
    if k1 == k2 {
      LastAtIsTheSeparator(id1, d1, |id2|);
      LastAtIsTheSeparator(id2, d2, |id1|);
      assert k1[..|id1|] == id1 && k2[..|id2|] == id2;
      assert k1[|id1| + 1..] == d1 && k2[|id2| + 1..] == d2;
      DecimalInjective(ts1, ts2);
    }
  }

  /** A message without a timestamp is remembered under its bare msgid, which
      can look like the key of another message, as "a@5" does like "a" at
      second 5. */
  predicate LooksLike(bareId: string, id: string, ts: int) {
    ts > 0 && bareId == id + "@" + Decimal(ts)
  }

  /** Two keys agree exactly for the same msgid at the same second, for the
      same msgid twice without a timestamp, or when one is bare and its msgid
      is the other's key. */
  lemma KeysAgreeIff(id1: string, ts1: int, id2: string, ts2: int)
    ensures DedupKey(id1, ts1) == DedupKey(id2, ts2) <==>
            (id1 == id2 && (ts1 == ts2 || (ts1 <= 0 && ts2 <= 0))) ||
            (ts1 <= 0 && LooksLike(id1, id2, ts2)) || (ts2 <= 0 && LooksLike(id2, id1, ts1))
  {
    if ts1 > 0 && ts2 > 0 {
      KeyInjective(id1, ts1, id2, ts2);
    } else if ts1 > 0 {
      assert |id1 + "@" + Decimal(ts1)| > |id1|;
    } else if ts2 > 0 {
      assert |id2 + "@" + Decimal(ts2)| > |id2|;
    }
  }

  predicate Marked(m: Message) {
    m.msgid.Some? && m.msgid.value != ""
  }

  /** The table holds exactly the keys of what was shown with a msgid. */
  predicate KnowsExactly(t: Tally) {
    t.seen.known == set m <- t.shown | Marked(m) :: DedupKey(m.msgid.value, m.ts)
  }

  /** This very message was shown before: the same msgid at the same second, or
      both times without one. */
  predicate ShownBefore(t: Tally, m: Message) {
    exists x <- t.shown :: Marked(x) && x.msgid == m.msgid && (x.ts == m.ts || (x.ts <= 0 && m.ts <= 0))
  }

  /** The database has it: under its msgid alone when there is no timestamp. */
  predicate IsStored(seen: Seen, m: Message)
    requires m.msgid.Some?
  {
    if m.ts == 0 then exists row <- seen.stored :: row.0 == m.msgid.value else (m.msgid.value, m.ts) in seen.stored
  }

  /** Another message was shown whose key looks like this one's. */
  predicate Mistaken(t: Tally, m: Message)
    requires m.msgid.Some?
  {
    exists x <- t.shown :: Marked(x) &&
      ((x.ts <= 0 && LooksLike(x.msgid.value, m.msgid.value, m.ts)) ||
       (m.ts <= 0 && LooksLike(m.msgid.value, x.msgid.value, x.ts)))
  }

  /** A message with a msgid, with a timestamp or without, is suppressed exactly
      when it was shown before, is stored, or is mistaken for another; it is
      suppressed wrongly in the last case alone. */
  lemma SuppressedIff(t: Tally, m: Message)
    requires KnowsExactly(t) && Marked(m) && m.hasCommand
    ensures !Shows(t.seen, m) <==> ShownBefore(t, m) || IsStored(t.seen, m) || Mistaken(t, m)
    ensures KnowsExactly(Process(t, m))
  {
    hide LooksLike;
    forall x <- t.shown | Marked(x)
      ensures DedupKey(x.msgid.value, x.ts) == DedupKey(m.msgid.value, m.ts) <==>
              (x.msgid == m.msgid && (x.ts == m.ts || (x.ts <= 0 && m.ts <= 0))) ||
              (x.ts <= 0 && LooksLike(x.msgid.value, m.msgid.value, m.ts)) ||
              (m.ts <= 0 && LooksLike(m.msgid.value, x.msgid.value, x.ts))
    {
      KeysAgreeIff(x.msgid.value, x.ts, m.msgid.value, m.ts);
    }
    KnowsAfter(t, m);
  }

  lemma KnowsAfter(t: Tally, m: Message)
    requires KnowsExactly(t)
    ensures KnowsExactly(Process(t, m))
  {
    hide DedupKey;
    if Shows(t.seen, m) {
      assert Process(t, m).shown == t.shown + [m];
    }
  }

  /** When every message carries a msgid and a positive timestamp, one is
      suppressed only if that very (msgid, timestamp) was shown before or is
      stored. */
  lemma SuppressedIffSeenBefore(t: Tally, m: Message)
    requires KnowsExactly(t) && (forall x <- t.shown :: Keyed(x)) && Keyed(m) && m.hasCommand
    ensures Shows(t.seen, m) <==>
            (m.msgid.value, m.ts) !in t.seen.stored &&
            forall x <- t.shown :: (x.msgid, x.ts) != (m.msgid, m.ts)
    ensures KnowsExactly(Process(t, m))
  {
    hide LooksLike;
    SuppressedIff(t, m);
  }
}
