/**
 The line splitter of DCC chats: bytes arrive in reads of any size, lines go
 out.  What is delivered depends on the stream alone, not on how it was cut.
 */
module DccChat {
  import opened CBytes

  const LINEBUF: nat := 2048
  const CR: byte := 13
  const LF: byte := 10

  // ----- what a stream means -----

  /** The part before the first newline. */
  function ToNewline(stream: seq<byte>): (n: nat)
    ensures n <= |stream| && LF !in stream[..n] && (n < |stream| ==> stream[n] == LF)
  {
    if stream == [] || stream[0] == LF then 0
    else
      assert forall i | 0 <= i < ToNewline(stream[1..]) :: stream[1..][i] == stream[i + 1];
      1 + ToNewline(stream[1..])
  }

  /** The lines a stream completes, newlines dropped. */
  function Split(stream: seq<byte>): seq<seq<byte>> {
    var n := ToNewline(stream);
    if n == |stream| then [] else [stream[..n]] + Split(stream[n + 1..])
  }

  function WithoutCr(s: seq<byte>): seq<byte> {
    if s == [] then [] else (if s[0] == CR then [] else [s[0]]) + WithoutCr(s[1..])
  }

  function Cut(s: seq<byte>): (r: seq<byte>)
    ensures |r| <= LINEBUF - 1
  {
    if |s| < LINEBUF then s else s[..LINEBUF - 1]
  }

  /** A raw line as it is shown: carriage returns out, at most 2047 bytes, and
      as a C string, so up to a zero byte. */
  function Shown(raw: seq<byte>): seq<byte> {
    CString(Cut(WithoutCr(raw)))
  }

  function AllShown(raws: seq<seq<byte>>): seq<seq<byte>> {
    if raws == [] then [] else [Shown(raws[0])] + AllShown(raws[1..])
  }

  // ----- the splitter as a fold -----

  /** The filled part of the line buffer, and the lines delivered so far. */
  datatype Chat = Chat(pending: seq<byte>, lines: seq<seq<byte>>)

  function Take(c: Chat, b: byte): Chat {
    if b == CR then c
    else if b == LF then Chat([], c.lines + [CString(c.pending)])
    else if |c.pending| < LINEBUF - 1 then c.(pending := c.pending + [b])
    else c
  }

  function TakeAll(c: Chat, bytes: seq<byte>): Chat
    decreases |bytes|
  {
    if bytes == [] then c else TakeAll(Take(c, bytes[0]), bytes[1..])
  }

  /** Reads as they come from the socket. */
  function Receive(c: Chat, parts: seq<seq<byte>>): Chat
    decreases |parts|
  {
    if parts == [] then c else Receive(TakeAll(c, parts[0]), parts[1..])
  }

  function Stream(parts: seq<seq<byte>>): seq<byte> {
    if parts == [] then [] else parts[0] + Stream(parts[1..])
  }

  lemma {:induction false} TakeAllAppend(c: Chat, a: seq<byte>, b: seq<byte>)
    ensures TakeAll(c, a + b) == TakeAll(TakeAll(c, a), b)
    decreases |a|
  {
    if a == [] {
      assert a + b == b;
    } else {
      assert (a + b)[1..] == a[1..] + b;
      TakeAllAppend(Take(c, a[0]), a[1..], b);
    }
  }

  lemma {:induction false} ReceiveIsTakeAll(c: Chat, parts: seq<seq<byte>>)
    ensures Receive(c, parts) == TakeAll(c, Stream(parts))
    decreases |parts|
  {
    if parts != [] {
      ReceiveIsTakeAll(TakeAll(c, parts[0]), parts[1..]);
      TakeAllAppend(c, parts[0], Stream(parts[1..]));
    }
  }

  lemma {:induction false} WithoutCrAppend(a: seq<byte>, b: seq<byte>)
    ensures WithoutCr(a + b) == WithoutCr(a) + WithoutCr(b)
  {
    if a == [] {
      assert a + b == b;
    } else {
      assert (a + b)[1..] == a[1..] + b;
      WithoutCrAppend(a[1..], b);
    }
  }

  /** The buffer holds the raw line so far, cleaned and cut. */
  predicate Holds(c: Chat, raw: seq<byte>) {
    c.pending == Cut(WithoutCr(raw))
  }

  lemma TakeHolds(c: Chat, raw: seq<byte>, b: byte)
    requires Holds(c, raw) && b != LF
    ensures Holds(Take(c, b), raw + [b]) && Take(c, b).lines == c.lines
  {
    WithoutCrAppend(raw, [b]);
    assert WithoutCr([b]) == if b == CR then [] else [b];
  }

  lemma {:induction false} PartialHolds(c: Chat, raw: seq<byte>, more: seq<byte>)
    requires Holds(c, raw) && LF !in more
    ensures Holds(TakeAll(c, more), raw + more) && TakeAll(c, more).lines == c.lines
    decreases |more|
  {
    if more == [] {
      assert raw + more == raw;
    } else {
      TakeHolds(c, raw, more[0]);
      PartialHolds(Take(c, more[0]), raw + [more[0]], more[1..]);
      assert raw + [more[0]] + more[1..] == raw + more;
    }
  }

  lemma LineEnds(c: Chat, raw: seq<byte>)
    requires Holds(c, raw)
    ensures Take(c, LF) == Chat([], c.lines + [Shown(raw)])
  {
  }

  lemma NothingHeld(c: Chat)
    requires c.pending == []
    ensures Holds(c, [])
  {
  }

  lemma {:induction false} TakeAllSplits(c: Chat, bytes: seq<byte>)
    requires c.pending == []
    ensures TakeAll(c, bytes).lines == c.lines + AllShown(Split(bytes))
    decreases |bytes|
  {
    hide Take, Holds, Shown, ToNewline;
    var n := ToNewline(bytes);
    var line, rest := bytes[..n], bytes[n..];
    assert bytes == line + rest;
    TakeAllAppend(c, line, rest);
    NothingHeld(c);
    PartialHolds(c, [], line);
    assert [] + line == line;
    var c1 := TakeAll(c, line);
    if n < |bytes| {
      assert rest[0] == LF && rest[1..] == bytes[n + 1..];
      LineEnds(c1, line);
      TakeAllSplits(Take(c1, LF), bytes[n + 1..]);
      AllShownStep(line, Split(bytes[n + 1..]));
    } else {
      assert rest == [] && c1.lines == c.lines;
    }
  }

  lemma AllShownStep(raw: seq<byte>, raws: seq<seq<byte>>)
    ensures AllShown([raw] + raws) == [Shown(raw)] + AllShown(raws)
  {
    assert ([raw] + raws)[1..] == raws;
  }

  /** However the received bytes were cut into reads, the lines delivered are
      the newline-split of the stream, each cleaned and cut. */
  lemma FragmentationDoesNotMatter(parts: seq<seq<byte>>)
    ensures Receive(Chat([], []), parts).lines == AllShown(Split(Stream(parts)))
  {
    ReceiveIsTakeAll(Chat([], []), parts);
    TakeAllSplits(Chat([], []), Stream(parts));
  }

  // ----- the buffer -----

  /** The line buffer of one chat with its write index. */
  class ChatBuffer {
    const linebuf: array<byte>
    var pos: nat

    ghost predicate Valid()
      reads this
    {
      linebuf.Length == LINEBUF && pos <= LINEBUF - 1
    }

    ghost function Pending(): seq<byte>
      requires Valid()
      reads this, linebuf
    {
      linebuf[..pos]
    }

    constructor ()
      ensures Valid() && fresh(linebuf) && Pending() == []
    {
      linebuf := new byte[LINEBUF];
      pos := 0;
    }

    /** The loop of dcc_read_chat over one received buffer, when no delivered
        line closes the chat: the write index never leaves the line buffer. */
    method Read(lbuf: seq<byte>) returns (lines: seq<seq<byte>>)
      requires Valid()
      modifies this, linebuf
      ensures Valid()
      ensures Chat(Pending(), lines) == TakeAll(Chat(old(Pending()), []), lbuf)
    {
      hide Take;
      lines := [];
      ghost var start := Chat(Pending(), []);
      var i := 0;
      while i < |lbuf|
        invariant 0 <= i <= |lbuf| && Valid()
        invariant TakeAll(start, lbuf) == TakeAll(Chat(Pending(), lines), lbuf[i..])
      {
        assert lbuf[i..][0] == lbuf[i] && lbuf[i..][1..] == lbuf[i + 1..];
        var line := Put(lbuf[i], lines);
        lines := lines + line;
        i := i + 1;
      }
    }

    /** One character of the loop; the line it completes, if it does. */
    method Put(b: byte, ghost sofar: seq<seq<byte>>) returns (line: seq<seq<byte>>)
      requires Valid()
      modifies this, linebuf
      ensures Valid()
      ensures Chat(Pending(), sofar + line) == Take(Chat(old(Pending()), sofar), b)
    {
      line := [];
      if b == CR {
        assert sofar + [] == sofar;
        return;
      }
      if b == LF {
        linebuf[pos] := 0;
        line := [CString(linebuf[..pos + 1])];
        EndsAtZero(linebuf[..pos]);
        assert linebuf[..pos + 1] == linebuf[..pos] + [0];
        pos := 0;
        return;
      }
      linebuf[pos] := b;
      if pos < LINEBUF - 1 {
        pos := pos + 1;
      }
      assert sofar + [] == sofar;
    }
  }

  lemma EndsAtZero(s: seq<byte>)
    ensures CString(s + [0]) == CString(s)
  {
    CStringOfPrefix(s, [0]);
  }
}
