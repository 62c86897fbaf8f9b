/**
 The engine's chunk timer, tick after tick, against one pass over the batch.
 */
module CatchUpChunks {
  import opened Wrappers
  import opened CatchUp
  import D = Dedup

  /** The ticks of one batch until nothing remains, with nothing in between. */
  function WorkOff(sess: Session, ch: Chunk): (Session, Chunk)
    decreases |ch.remaining|
  {
    var (sess', ch') := TakeChunk(sess, ch);
    if ch'.remaining == [] then (sess', ch') else WorkOff(sess', ch')
  }

  lemma {:induction false} FoldShown(t: D.Tally, before: seq<D.Message>, msgs: seq<D.Message>)
    ensures D.Fold(t.(shown := before + t.shown), msgs) ==
            D.Fold(t, msgs).(shown := before + D.Fold(t, msgs).shown)
    decreases |msgs|
  {
    hide D.Track, D.Shows;
    if msgs == [] {
    } else {
      var m := msgs[0];
      assert before + t.shown + [m] == before + (t.shown + [m]);
      assert D.Process(t.(shown := before + t.shown), m) == D.Process(t, m).(shown := before + D.Process(t, m).shown);
      FoldShown(D.Process(t, m), before, msgs[1..]);
    }
  }

  lemma {:induction false} FirstOfBoth(a: seq<D.Message>, b: seq<D.Message>)
    ensures FirstRemembered(a + b) == if FirstRemembered(a).Some? then FirstRemembered(a) else FirstRemembered(b)
  {
    if a == [] {
      assert a + b == b;
    } else {
      assert (a + b)[1..] == a[1..] + b;
      FirstOfBoth(a[1..], b);
    }
  }

  function Begin(sess: Session, ch: Chunk): D.Tally {
    D.Tally(sess.seen, [], ch.oldest, ch.newest)
  }

  /** The session and the batch once the whole list was passed over at once. */
  function AtOnce(sess: Session, ch: Chunk): (Session, Chunk) {
    var t := D.Fold(Begin(sess, ch), ch.remaining);
    (sess.(seen := t.seen, oldest := if sess.oldest.Some? then sess.oldest else FirstRemembered(t.shown)),
     ch.(remaining := [], msgCount := ch.msgCount + |t.shown|, oldest := t.oldest, newest := t.newest))
  }

  lemma FoldNothing(t: D.Tally, msgs: seq<D.Message>)
    requires msgs == []
    ensures D.Fold(t, msgs) == t
  {
  }

  /** Fifty at a time or all at once: the same keys remembered, the same number
      of messages shown, the same oldest and newest timestamps. */
  lemma {:induction false} TicksEqualOnePass(sess: Session, ch: Chunk)
    ensures WorkOff(sess, ch) == AtOnce(sess, ch)
    decreases |ch.remaining|
  {
    hide D.Fold, FirstRemembered, HasText;
    var n := D.ChunkLength(ch.remaining);
    var t := D.Fold(Begin(sess, ch), ch.remaining[..n]);
    D.FoldSplit(Begin(sess, ch), ch.remaining, n);
    var (sess', ch') := TakeChunk(sess, ch);
    if ch.remaining[n..] == [] {
      FoldNothing(t, ch.remaining[n..]);
    } else {
      TicksEqualOnePass(sess', ch');
      assert t == t.(shown := t.shown + []);
      FoldShown(t.(shown := []), t.shown, ch.remaining[n..]);
      FirstOfBoth(t.shown, D.Fold(t.(shown := []), ch.remaining[n..]).shown);
      assert Begin(sess', ch') == t.(shown := []);
    }
  }
}
