/**
 Packing nicks into MODE lines: at most so many per line, and no line over the
 512 bytes of section 2.3 of RFC 2812, line end included.
 */
module ModePacking {

  /** The nicks' share of a line: each with the blank before it. */
  function Weight(nicks: seq<string>): nat {
    if nicks == [] then 0 else |nicks[0]| + 1 + Weight(nicks[1..])
  }

  /** How many of the nicks fit a line that has `room` left, `per` at most. */
  function Fit(nicks: seq<string>, per: nat, room: int): (n: nat)
    ensures n <= |nicks| && n <= per
  {
    if nicks == [] || per == 0 || |nicks[0]| + 1 > room then 0
    else 1 + Fit(nicks[1..], per - 1, room - |nicks[0]| - 1)
  }

  function Letters(mode: char, n: nat): (s: string)
    ensures |s| == n
  {
    seq(n, _ => mode)
  }

  function Blanked(nicks: seq<string>): string {
    if nicks == [] then "" else " " + nicks[0] + Blanked(nicks[1..])
  }

  /** The mode argument of one line, such as "+oo nick1 nick2". */
  function ModeText(nicks: seq<string>, sign: char, mode: char): string {
    [sign] + Letters(mode, |nicks|) + Blanked(nicks)
  }

  /** What is left for mode letters and nicks: the line without "MODE ", the
      channel, a blank, the sign and the line end. */
  function Max(channel: string): int {
    503 - |channel|
  }

  /** The groups of nicks that go out, line by line.  `per` letters are allowed
      for whether or not all are used, and the first nick that does not fit a
      line of its own ends the packing. */
  function Groups(nicks: seq<string>, per: nat, max: int): seq<seq<string>>
    decreases |nicks|
  {
    var n := Fit(nicks, per, max - per);
    if n < 1 then [] else [nicks[..n]] + Groups(nicks[n..], per, max)
  }

  function Texts(groups: seq<seq<string>>, sign: char, mode: char): seq<string> {
    if groups == [] then [] else [ModeText(groups[0], sign, mode)] + Texts(groups[1..], sign, mode)
  }

  /** The server's own limit where the caller gives none, three where that is unknown. */
  function PerLine(wanted: int, serverLimit: int): (n: nat)
    ensures n >= 1
  {
    if wanted >= 1 then wanted else if serverLimit >= 1 then serverLimit else 3
  }

  /** send_channel_modes: the texts given to the MODE command, in order. */
  method SendChannelModes(channel: string, nicks: seq<string>, sign: char, mode: char, wanted: int, serverLimit: int)
    returns (sent: seq<string>)
    ensures var per := PerLine(wanted, serverLimit);
      sent == Texts(Groups(nicks, per, Max(channel)), sign, mode)
  {
    hide Fit, ModeText, Groups, Texts;
    var per := wanted;
    if per < 1 {
      per := if serverLimit < 1 then 3 else serverLimit;
    }
    var max := 503 - |channel|;
    sent := [];
    var wpos := 0;
    assert nicks[0..] == nicks;
    while wpos < |nicks|
      invariant 0 <= wpos <= |nicks|
      invariant Texts(Groups(nicks, per, max), sign, mode) == sent + Texts(Groups(nicks[wpos..], per, max), sign, mode)
      decreases |nicks| - wpos
    {
      var usable := HowMany(nicks, wpos, per, max);
      if usable < 1 {
        NoMore(sent, nicks[wpos..], per, max, sign, mode);
        return;
      }
      var text := BuildText(nicks, wpos, usable, sign, mode);
      TextsStep(sent, nicks[wpos..], per, max, sign, mode);
      assert nicks[wpos..][..usable] == nicks[wpos..wpos + usable] && nicks[wpos..][usable..] == nicks[wpos + usable..];
      sent := sent + [text];
      wpos := wpos + usable;
    }
    NoneFit(nicks[wpos..], per, max);
    NoMore(sent, nicks[wpos..], per, max, sign, mode);
  }

  lemma NoneFit(nicks: seq<string>, per: nat, max: int)
    requires nicks == []
    ensures Fit(nicks, per, max - per) == 0
  {
  }

  lemma NoMore(sent: seq<string>, nicks: seq<string>, per: nat, max: int, sign: char, mode: char)
    requires Fit(nicks, per, max - per) < 1
    ensures sent + Texts(Groups(nicks, per, max), sign, mode) == sent
  {
    hide Fit;
  }

  lemma TextsStep(sent: seq<string>, nicks: seq<string>, per: nat, max: int, sign: char, mode: char)
    requires Fit(nicks, per, max - per) >= 1
    ensures var n := Fit(nicks, per, max - per);
      sent + Texts(Groups(nicks, per, max), sign, mode) ==
      sent + [ModeText(nicks[..n], sign, mode)] + Texts(Groups(nicks[n..], per, max), sign, mode)
  {
    hide Fit, ModeText;
    var n := Fit(nicks, per, max - per);
    assert Groups(nicks, per, max)[1..] == Groups(nicks[n..], per, max);
  }

  /** The first inner loop: how many nicks from `wpos` fit. */
  method HowMany(nicks: seq<string>, wpos: nat, per: nat, max: int) returns (usable: nat)
    requires wpos <= |nicks|
    ensures usable == Fit(nicks[wpos..], per, max - per)
  {
    var len: int := per;
    usable := 0;
    while usable < per
      invariant usable <= per && wpos + usable <= |nicks|
      invariant Fit(nicks[wpos..], per, max - per) == usable + Fit(nicks[wpos + usable..], per - usable, max - len)
    {
      if wpos + usable >= |nicks| {
        break;
      }
      var rest := nicks[wpos + usable..];
      assert rest[0] == nicks[wpos + usable] && rest[1..] == nicks[wpos + usable + 1..];
      var wlen := |nicks[wpos + usable]| + 1;
      if wlen + len > max {
        break;
      }
      len := len + wlen;
      usable := usable + 1;
    }
  }

  /** The other two: the sign and its letters, then the nicks. */
  method BuildText(nicks: seq<string>, wpos: nat, usable: nat, sign: char, mode: char) returns (tbuf: string)
    requires wpos + usable <= |nicks|
    ensures tbuf == ModeText(nicks[wpos..wpos + usable], sign, mode)
  {
    ghost var group := nicks[wpos..wpos + usable];
    tbuf := [sign];
    var i := 0;
    while i < usable
      invariant 0 <= i <= usable
      invariant tbuf == [sign] + Letters(mode, i)
    {
      tbuf := tbuf + [mode];
      i := i + 1;
    }
    ghost var head := tbuf;
    i := 0;
    while i < usable
      invariant 0 <= i <= usable
      invariant head + Blanked(group) == tbuf + Blanked(group[i..])
    {
      assert group[i..][0] == nicks[wpos + i] && group[i..][1..] == group[i + 1..];
      tbuf := tbuf + " ";
      tbuf := tbuf + nicks[wpos + i];
      i := i + 1;
    }
    assert tbuf + Blanked([]) == tbuf;
  }

  // ----- what goes out -----

  function Concat(groups: seq<seq<string>>): seq<string> {
    if groups == [] then [] else groups[0] + Concat(groups[1..])
  }

  /** The nick fits a line of its own. */
  predicate FitsAlone(nick: string, per: nat, max: int) {
    |nick| + 1 + per <= max
  }

  /** How many nicks there are before the first that does not fit alone. */
  function UpToTooLong(nicks: seq<string>, per: nat, max: int): (n: nat)
    ensures n <= |nicks|
    ensures forall i | 0 <= i < n :: FitsAlone(nicks[i], per, max)
    ensures n < |nicks| ==> !FitsAlone(nicks[n], per, max)
  {
    if nicks == [] || !FitsAlone(nicks[0], per, max) then 0 else 1 + UpToTooLong(nicks[1..], per, max)
  }

  lemma {:induction false} FittingOnesFitAlone(nicks: seq<string>, per: nat, room: int, allowed: nat, max: int)
    requires room <= max - per
    ensures forall i | 0 <= i < Fit(nicks, allowed, room) :: FitsAlone(nicks[i], per, max)
    decreases allowed
  {
    if nicks != [] && allowed > 0 && |nicks[0]| + 1 <= room {
      FittingOnesFitAlone(nicks[1..], per, room - |nicks[0]| - 1, allowed - 1, max);
    }
  }

  lemma {:induction false} UpToTooLongSkips(nicks: seq<string>, per: nat, max: int, n: nat)
    requires n <= |nicks| && forall i | 0 <= i < n :: FitsAlone(nicks[i], per, max)
    ensures UpToTooLong(nicks, per, max) == n + UpToTooLong(nicks[n..], per, max)
  {
    if n == 0 {
      assert nicks[0..] == nicks;
    } else {
      UpToTooLongSkips(nicks[1..], per, max, n - 1);
      assert nicks[1..][n - 1..] == nicks[n..];
    }
  }

  /** In order, none repeated, none left out before the first nick that is too
      long for a line of its own; nothing from there on. */
  lemma {:induction false} SentAreThosePriorToTooLong(nicks: seq<string>, per: nat, max: int)
    requires per >= 1
    ensures Concat(Groups(nicks, per, max)) == nicks[..UpToTooLong(nicks, per, max)]
    decreases |nicks|
  {
    hide UpToTooLong, Fit, FitsAlone, Groups, Concat;
    var n := Fit(nicks, per, max - per);
    ConcatStep(nicks, per, max);
    if n >= 1 {
      FittingOnesFitAlone(nicks, per, max - per, per, max);
      UpToTooLongSkips(nicks, per, max, n);
      SentAreThosePriorToTooLong(nicks[n..], per, max);
      var k := UpToTooLong(nicks[n..], per, max);
      assert nicks[..n] + nicks[n..][..k] == nicks[..n + k];
    } else {
      StopsAtOnce(nicks, per, max);
      assert nicks[..0] == [];
    }
  }

  lemma ConcatStep(nicks: seq<string>, per: nat, max: int)
    ensures var n := Fit(nicks, per, max - per);
      Concat(Groups(nicks, per, max)) == if n < 1 then [] else nicks[..n] + Concat(Groups(nicks[n..], per, max))
  {
    hide Fit;
    var n := Fit(nicks, per, max - per);
    assert n >= 1 ==> Groups(nicks, per, max)[1..] == Groups(nicks[n..], per, max);
  }

  lemma StopsAtOnce(nicks: seq<string>, per: nat, max: int)
    requires per >= 1 && Fit(nicks, per, max - per) == 0
    ensures UpToTooLong(nicks, per, max) == 0
  {
  }

  /** So everybody is served exactly when each nick fits alone. */
  lemma AllSentIff(nicks: seq<string>, per: nat, max: int)
    requires per >= 1
    ensures Concat(Groups(nicks, per, max)) == nicks <==> forall nick <- nicks :: FitsAlone(nick, per, max)
  {
    SentAreThosePriorToTooLong(nicks, per, max);
    var k := UpToTooLong(nicks, per, max);
    if k < |nicks| {
      assert nicks[k] in nicks;
    } else {
      assert nicks[..k] == nicks;
    }
  }

  lemma {:induction false} FitWeighs(nicks: seq<string>, per: nat, room: int)
    ensures var n := Fit(nicks, per, room); n > 0 ==> Weight(nicks[..n]) <= room
    decreases per
  {
    var n := Fit(nicks, per, room);
    if n > 0 {
      FitWeighs(nicks[1..], per - 1, room - |nicks[0]| - 1);
      assert nicks[..n][1..] == nicks[1..][..n - 1];
    }
  }

  lemma {:induction false} BlankedLength(nicks: seq<string>)
    ensures |Blanked(nicks)| == Weight(nicks)
  {
    if nicks != [] {
      BlankedLength(nicks[1..]);
    }
  }

  /** The line on the wire. */
  function WireLine(channel: string, text: string): string {
    "MODE " + channel + " " + text + "\r\n"
  }

  lemma LineFits(channel: string, nicks: seq<string>, per: nat, sign: char, mode: char)
    requires Fit(nicks, per, Max(channel) - per) >= 1
    ensures var n := Fit(nicks, per, Max(channel) - per);
      n <= per && |WireLine(channel, ModeText(nicks[..n], sign, mode))| <= 512
  {
    var n := Fit(nicks, per, Max(channel) - per);
    FitWeighs(nicks, per, Max(channel) - per);
    hide Fit, Weight, Blanked;
    BlankedLength(nicks[..n]);
  }

  // ----- how a line reads -----

  /** The words of a text, cut at its blanks. */
  function Words(text: string): (words: seq<string>)
    ensures |words| >= 1
  {
    if text == "" then [""]
    else
      var rest := Words(text[1..]);
      if text[0] == ' ' then [""] + rest else [[text[0]] + rest[0]] + rest[1..]
  }

  predicate OneWord(text: string) {
    ' ' !in text
  }

  lemma {:induction false} WordsAfter(word: string, text: string)
    requires OneWord(word)
    ensures Words(word + text) == [word + Words(text)[0]] + Words(text)[1..]
  {
    var rest := Words(text);
    if word == "" {
      assert word + text == text && word + rest[0] == rest[0];
    } else {
      WordsAfter(word[1..], text);
      WordGrows(word[0], word[1..] + text);
      assert word + text == [word[0]] + (word[1..] + text);
      assert [word[0]] + (word[1..] + rest[0]) == word + rest[0];
    }
  }

  lemma WordGrows(c: char, text: string)
    requires c != ' '
    ensures Words([c] + text) == [[c] + Words(text)[0]] + Words(text)[1..]
  {
    assert ([c] + text)[1..] == text;
  }

  lemma {:induction false} BlankedWords(nicks: seq<string>)
    requires forall nick <- nicks :: OneWord(nick)
    ensures Words(Blanked(nicks)) == [""] + nicks
  {
    if nicks != [] {
      BlankedWords(nicks[1..]);
      WordsAfter(nicks[0], Blanked(nicks[1..]));
      var text := " " + nicks[0] + Blanked(nicks[1..]);
      assert text[1..] == nicks[0] + Blanked(nicks[1..]);
      assert nicks[0] + "" == nicks[0] && [nicks[0]] + nicks[1..] == nicks;
    }
  }

  /** Cut at its blanks, a line gives the sign with one letter for each nick,
      and then the nicks. */
  lemma LineReads(nicks: seq<string>, sign: char, mode: char)
    requires sign != ' ' && mode != ' ' && forall nick <- nicks :: OneWord(nick)
    ensures var words := Words(ModeText(nicks, sign, mode));
      words[1..] == nicks &&
      |words[0]| == 1 + |nicks| && words[0][0] == sign && forall i | 1 <= i < |words[0]| :: words[0][i] == mode
  {
    BlankedWords(nicks);
    WordsAfter([sign] + Letters(mode, |nicks|), Blanked(nicks));
  }

  lemma {:induction false} FitIsGreedy(nicks: seq<string>, per: nat, room: int)
    ensures var n := Fit(nicks, per, room); n == |nicks| || n == per || Weight(nicks[..n + 1]) > room
    decreases per
  {
    if nicks != [] && per > 0 {
      if |nicks[0]| + 1 <= room {
        FitIsGreedy(nicks[1..], per - 1, room - |nicks[0]| - 1);
        var n := Fit(nicks, per, room);
        assert n < |nicks| ==> nicks[..n + 1][1..] == nicks[1..][..n];
      } else {
        OneWeighs(nicks);
      }
    }
  }

  lemma OneWeighs(nicks: seq<string>)
    requires nicks != []
    ensures Weight(nicks[..1]) == |nicks[0]| + 1
  {
  }

  /** No line is cut short: one more nick is sent on the next line only when
      this one has its `per`, or has no room for it. */
  lemma {:induction false} LinesAreFull(nicks: seq<string>, per: nat, max: int, i: nat)
    requires i + 1 < |Groups(nicks, per, max)|
    ensures var groups := Groups(nicks, per, max);
      groups[i + 1] != [] && (|groups[i]| == per || Weight(groups[i] + [groups[i + 1][0]]) > max - per)
    decreases i
  {
    hide Fit, Weight;
    var n := Fit(nicks, per, max - per);
    assert Groups(nicks, per, max)[1..] == Groups(nicks[n..], per, max);
    if i == 0 {
      FitIsGreedy(nicks, per, max - per);
      assert nicks[..n] + [nicks[n]] == nicks[..n + 1];
    } else {
      LinesAreFull(nicks[n..], per, max, i - 1);
    }
  }

  /** Every line carries at least one nick and at most `per`, and is at most
      512 bytes long with its line end. */
  lemma {:induction false} LinesFit(channel: string, nicks: seq<string>, per: nat, sign: char, mode: char)
    ensures forall g <- Groups(nicks, per, Max(channel)) ::
      1 <= |g| <= per && |WireLine(channel, ModeText(g, sign, mode))| <= 512
    decreases |nicks|
  {
    hide Fit, ModeText;
    var max := Max(channel);
    var n := Fit(nicks, per, max - per);
    if n >= 1 {
      LineFits(channel, nicks, per, sign, mode);
      LinesFit(channel, nicks[n..], per, sign, mode);
    }
  }
}
