/**
 A channel's mode string, such as "+ntkl key 50": mode letters, then one
 argument for every letter that takes one, in letter order.  The client edits
 the flat string in place by counting letters and spaces; here that editing is
 shown to be plain insertion, update and removal in an ordered map.
 */
module ChannelModes {
  import opened Wrappers

  /** What the server announced: the nick modes of PREFIX, and CHANMODES with
      its four comma-separated types (section 3.3 of
      draft-brocklesby-irc-isupport-03). */
  datatype Server = Server(nickModes: string, chanmodes: string)

  // ----- which modes take an argument -----

  /** Type of a mode: the number of commas before its first occurrence, -1 when it has none. */
  function TypeFrom(cm: string, mode: char, commas: nat): int {
    if cm == "" then -1
    else if cm[0] == ',' then TypeFrom(cm[1..], mode, commas + 1)
    else if cm[0] == mode then commas
    else TypeFrom(cm[1..], mode, commas)
  }

  predicate HasArg(serv: Server, sign: char, mode: char) {
    mode in serv.nickModes ||
    var type_ := TypeFrom(serv.chanmodes, mode, 0);
    type_ == 0 || type_ == 1 || (type_ == 2 && sign == '+')
  }

  /** mode_chanmode_type. */
  method ModeChanmodeType(serv: Server, mode: char) returns (r: int)
    ensures r == TypeFrom(serv.chanmodes, mode, 0)
  {
    var cm := serv.chanmodes;
    var type_, found, i := 0, false, 0;
    while i < |cm| && !found
      invariant 0 <= i <= |cm| && type_ >= 0
      invariant TypeFrom(cm, mode, 0) == if found then type_ else TypeFrom(cm[i..], mode, type_)
    {
      assert cm[i..][0] == cm[i] && cm[i..][1..] == cm[i + 1..];
      if cm[i] == ',' {
        type_ := type_ + 1;
      } else if cm[i] == mode {
        found := true;
      }
      i := i + 1;
    }
    r := if found then type_ else -1;
  }

  /** mode_has_arg. */
  method ModeHasArg(serv: Server, sign: char, mode: char) returns (r: bool)
    ensures r == HasArg(serv, sign, mode)
  {
    if mode in serv.nickModes {
      return true;
    }
    var type_ := ModeChanmodeType(serv, mode);
    if type_ == 0 || type_ == 1 {
      return true;
    }
    if type_ == 2 && sign == '+' {
      return true;
    }
    return false;
  }

  /** chathistory_mode_has_arg, the history replayer's own test: it decides at
      the first occurrence, while the walk over CHANMODES is still going on.
      The same answer as `ModeHasArg` for every server, sign and mode. */
  method ReplayerHasArg(serv: Server, sign: char, mode: char) returns (r: bool)
    ensures r == HasArg(serv, sign, mode)
  {
    if serv.nickModes != "" && mode in serv.nickModes {
      return true;
    }
    var cm := serv.chanmodes;
    var type_, i := 0, 0;
    while i < |cm|
      invariant 0 <= i <= |cm| && type_ >= 0
      invariant TypeFrom(cm, mode, 0) == TypeFrom(cm[i..], mode, type_)
    {
      assert cm[i..][0] == cm[i] && cm[i..][1..] == cm[i + 1..];
      if cm[i] == ',' {
        type_ := type_ + 1;
      } else if cm[i] == mode {
        match type_
        case 0 => return true;
        case 1 => return true;
        case 2 => return sign == '+';
        case _ => return false;
      }
      i := i + 1;
    }
    return false;
  }

  lemma {:induction false} TypeSkips(section: string, rest: string, mode: char, commas: nat)
    requires ',' !in section && mode !in section
    ensures TypeFrom(section + rest, mode, commas) == TypeFrom(rest, mode, commas)
  {
    if section == "" {
      assert section + rest == rest;
    } else {
      assert (section + rest)[1..] == section[1..] + rest;
      TypeSkips(section[1..], rest, mode, commas);
    }
  }

  lemma {:induction false} TypeFinds(section: string, rest: string, mode: char, commas: nat)
    requires ',' !in section && mode in section
    ensures TypeFrom(section + rest, mode, commas) == commas
  {
    assert (section + rest)[1..] == section[1..] + rest;
    if section[0] != mode {
      TypeFinds(section[1..], rest, mode, commas);
    }
  }

  lemma SectionType(section: string, rest: string, mode: char, commas: nat)
    requires ',' !in section
    ensures TypeFrom(section + "," + rest, mode, commas) ==
            if mode in section then commas else TypeFrom(rest, mode, commas + 1)
  {
    assert section + "," + rest == section + ("," + rest);
    if mode in section {
      TypeFinds(section, "," + rest, mode, commas);
    } else {
      TypeSkips(section, "," + rest, mode, commas);
      assert ("," + rest)[1..] == rest;
    }
  }

  /** With CHANMODES=A,B,C,D: nick modes, types A and B always take an
      argument, type C when set, type D never. */
  lemma HasArgBySections(nickModes: string, a: string, b: string, c: string, d: string, sign: char, mode: char)
    requires ',' !in a && ',' !in b && ',' !in c && ',' !in d
    ensures HasArg(Server(nickModes, a + "," + (b + "," + (c + "," + d))), sign, mode) <==>
            mode in nickModes || mode in a || mode in b || (mode in c && sign == '+')
  {
    SectionType(a, b + "," + (c + "," + d), mode, 0);
    SectionType(b, c + "," + d, mode, 1);
    SectionType(c, d, mode, 2);
    if mode in d {
      TypeFinds(d, "", mode, 3);
    } else {
      TypeSkips(d, "", mode, 3);
    }
    assert d + "" == d;
  }

  // ----- the ordered map and its text -----

  datatype Mode = Mode(letter: char, arg: Option<string>)

  function Letters(ms: seq<Mode>): (s: string)
    ensures |s| == |ms| && forall i | 0 <= i < |ms| :: s[i] == ms[i].letter
  {
    seq(|ms|, i requires 0 <= i < |ms| => ms[i].letter)
  }

  function ArgText(m: Mode): string {
    if m.arg.Some? then " " + m.arg.value else ""
  }

  function Args(ms: seq<Mode>): string {
    if ms == [] then "" else ArgText(ms[0]) + Args(ms[1..])
  }

  function Render(ms: seq<Mode>): string {
    Letters(ms) + Args(ms)
  }

  predicate ModeOk(serv: Server, m: Mode) {
    m.letter != ' ' && (m.arg.Some? <==> HasArg(serv, '+', m.letter)) && (m.arg.Some? ==> ' ' !in m.arg.value)
  }

  predicate Distinct(ms: seq<Mode>) {
    forall i, j | 0 <= i < j < |ms| :: ms[i].letter != ms[j].letter
  }

  /** Distinct letters, an argument exactly where one is due, no spaces inside. */
  predicate WellFormed(serv: Server, ms: seq<Mode>) {
    (forall m <- ms :: ModeOk(serv, m)) && Distinct(ms)
  }

  /** Position of a letter, or the length when it is not there. */
  function Position(ms: seq<Mode>, letter: char): (p: nat)
    ensures p <= |ms|
    ensures p < |ms| ==> ms[p].letter == letter
    ensures forall i | 0 <= i < p :: ms[i].letter != letter
  {
    if ms == [] || ms[0].letter == letter then 0 else 1 + Position(ms[1..], letter)
  }

  /** One mode change on the ordered map: insert at the end, update in place, or remove. */
  function Apply(serv: Server, ms: seq<Mode>, sign: char, letter: char, arg: string): seq<Mode> {
    var p := Position(ms, letter);
    if sign == '+' then
      if p == |ms| then ms + [Mode(letter, if HasArg(serv, '+', letter) then Some(arg) else None)]
      else if HasArg(serv, '+', letter) then ms[p := Mode(letter, Some(arg))]
      else ms
    else if sign == '-' && p < |ms| then ms[..p] + ms[p + 1..]
    else ms
  }

  function AsMap(ms: seq<Mode>): map<char, Option<string>> {
    if ms == [] then map[] else AsMap(ms[1..])[ms[0].letter := ms[0].arg]
  }

  lemma {:induction false} AsMapKeys(ms: seq<Mode>, letter: char)
    ensures letter in AsMap(ms) <==> Position(ms, letter) < |ms|
  {
    if ms != [] {
      AsMapKeys(ms[1..], letter);
    }
  }

  lemma {:induction false} AsMapAppend(ms: seq<Mode>, m: Mode)
    requires Position(ms, m.letter) == |ms|
    ensures AsMap(ms + [m]) == AsMap(ms)[m.letter := m.arg]
  {
    if ms == [] {
      assert ms + [m] == [m];
    } else {
      assert (ms + [m])[1..] == ms[1..] + [m];
      AsMapAppend(ms[1..], m);
    }
  }

  lemma {:induction false} AsMapUpdate(ms: seq<Mode>, p: nat, arg: Option<string>)
    requires p < |ms| && Distinct(ms)
    ensures AsMap(ms[p := Mode(ms[p].letter, arg)]) == AsMap(ms)[ms[p].letter := arg]
  {
    var m := Mode(ms[p].letter, arg);
    if p > 0 {
      assert ms[p := m][1..] == ms[1..][p - 1 := m];
      AsMapUpdate(ms[1..], p - 1, arg);
    } else {
      assert ms[p := m][1..] == ms[1..];
    }
  }

  lemma {:induction false} AsMapRemove(ms: seq<Mode>, p: nat)
    requires p < |ms| && Distinct(ms)
    ensures AsMap(ms[..p] + ms[p + 1..]) == AsMap(ms) - {ms[p].letter}
  {
    var rest := ms[..p] + ms[p + 1..];
    if p > 0 {
      assert rest[1..] == ms[1..][..p - 1] + ms[1..][p..];
      AsMapRemove(ms[1..], p - 1);
      assert ms[0].letter != ms[p].letter;
    } else {
      assert rest == ms[1..];
      AsMapKeys(ms[1..], ms[0].letter);
    }
  }

  lemma {:induction false} AsMapGets(ms: seq<Mode>, p: nat)
    requires p < |ms| && Distinct(ms)
    ensures ms[p].letter in AsMap(ms) && AsMap(ms)[ms[p].letter] == ms[p].arg
  {
    if p > 0 {
      AsMapGets(ms[1..], p - 1);
      assert ms[0].letter != ms[p].letter;
    }
  }

  /** On the underlying map a change is plain insertion, update or removal. */
  lemma ApplyIsMapUpdate(serv: Server, ms: seq<Mode>, sign: char, letter: char, arg: string)
    requires WellFormed(serv, ms)
    ensures
      AsMap(Apply(serv, ms, sign, letter, arg)) ==
      if sign == '+' then AsMap(ms)[letter := if HasArg(serv, '+', letter) then Some(arg) else None]
      else if sign == '-' then AsMap(ms) - {letter}
      else AsMap(ms)
  {
    hide HasArg, AsMap;
    var p := Position(ms, letter);
    AsMapKeys(ms, letter);
    if p == |ms| {
      AsMapAppend(ms, Mode(letter, if HasArg(serv, '+', letter) then Some(arg) else None));
    } else {
      AsMapUpdate(ms, p, Some(arg));
      AsMapRemove(ms, p);
      AsMapGets(ms, p);
      assert ModeOk(serv, ms[p]);
    }
  }

  lemma ApplyWellFormed(serv: Server, ms: seq<Mode>, sign: char, letter: char, arg: string)
    requires WellFormed(serv, ms) && letter != ' ' && ' ' !in arg
    ensures WellFormed(serv, Apply(serv, ms, sign, letter, arg))
  {
    hide HasArg;
    var p := Position(ms, letter);
    hide Position;
    if sign == '+' && p == |ms| {
      AppendKeepsDistinct(ms, Mode(letter, if HasArg(serv, '+', letter) then Some(arg) else None));
    } else if sign == '-' && p < |ms| {
      assert forall m <- ms[..p] + ms[p + 1..] :: m in ms;
    }
  }

  lemma AppendKeepsDistinct(ms: seq<Mode>, m: Mode)
    requires Distinct(ms) && forall i | 0 <= i < |ms| :: ms[i].letter != m.letter
    ensures Distinct(ms + [m])
  {
  }

  // ----- editing the flat string -----

  /** Length of the text before the first space. */
  function ToSpace(s: string): (n: nat)
    ensures n <= |s|
  {
    if s == "" || s[0] == ' ' then 0 else 1 + ToSpace(s[1..])
  }

  function FindLetter(s: string, c: char): (n: nat)
    ensures n <= |s|
  {
    if s == "" || s[0] == c then 0 else 1 + FindLetter(s[1..], c)
  }

  function CountArgs(serv: Server, letters: string): nat {
    if letters == "" then 0 else (if HasArg(serv, '+', letters[0]) then 1 else 0) + CountArgs(serv, letters[1..])
  }

  /** Position of the n-th space, or the length when there are fewer. */
  function NthSpace(s: string, n: nat): (p: nat)
    ensures p <= |s|
  {
    if s == "" || n == 0 then 0
    else if s[0] == ' ' then if n == 1 then 0 else 1 + NthSpace(s[1..], n - 1)
    else 1 + NthSpace(s[1..], n)
  }

  /** g_string_erase: a negative length means up to the end; a position out of
      range is refused. */
  function Erase(s: string, pos: int, len: int): string {
    if pos < 0 || pos > |s| then s
    else if len < 0 then s[..pos]
    else if pos + len > |s| then s
    else s[..pos] + s[pos + len..]
  }

  /** g_string_insert, with the same refusal. */
  function Insert(s: string, pos: int, text: string): string {
    if pos < 0 || pos > |s| then s else s[..pos] + text + s[pos..]
  }

  /** Where the argument of the letter at `pos` starts (its space), and its
      length with the space: zero when the string has too few arguments. */
  function ArgSpan(serv: Server, s: string, letters: nat, pos: nat): (span: (nat, nat))
    requires pos < letters <= |s|
    ensures letters <= span.0 && span.0 + span.1 <= |s|
  {
    var n := CountArgs(serv, s[..pos + 1]);
    var start := letters + NthSpace(s[letters..], n);
    (start, if start == |s| then 0 else 1 + ToSpace(s[start + 1..]))
  }

  /** The new text after one change. */
  function Edit(serv: Server, s: string, sign: char, letter: char, arg: string): string {
    var letters := ToSpace(s);
    var pos := FindLetter(s[..letters], letter);
    var takes := HasArg(serv, '+', letter);
    if sign == '+' then
      if pos == letters then
        Insert(s, letters, [letter]) + (if takes then " " + arg else "")
      else if takes then
        var (start, len) := ArgSpan(serv, s, letters, pos);
        Insert(Erase(s, start + 1, len - 1), start + 1, arg)
      else s
    else if sign == '-' && pos < letters then
      var cut := if takes then
                   var (start, len) := ArgSpan(serv, s, letters, pos);
                   Erase(s, start, len)
                 else s;
      Erase(cut, pos, 1)
    else s
  }

  // ----- the scanning loops of record_chan_mode -----

  /** Where the letters end: the first space, or the end of the string. */
  method LettersLength(s: string) returns (n: nat)
    ensures n == ToSpace(s)
  {
    n := 0;
    while n < |s| && s[n] != ' '
      invariant n <= |s|
      invariant ToSpace(s) == n + ToSpace(s[n..])
    {
      assert s[n..][0] == s[n] && s[n..][1..] == s[n + 1..];
      n := n + 1;
    }
  }

  /** Position of the mode among the letters, -1 when it is not set. */
  method FindMode(s: string, letters: nat, mode: char) returns (modePos: int)
    requires letters <= |s|
    ensures var p := FindLetter(s[..letters], mode); modePos == if p == letters then -1 else p
  {
    modePos := -1;
    var i := 0;
    while modePos == -1 && i < letters
      invariant 0 <= i <= letters
      invariant modePos == -1 ==> FindLetter(s[..letters], mode) == i + FindLetter(s[i..letters], mode)
      invariant modePos != -1 ==> modePos == i == FindLetter(s[..letters], mode) && i < letters
    {
      assert s[i..letters][0] == s[i] && s[i..letters][1..] == s[i + 1..letters];
      if s[i] == mode {
        modePos := i;
      } else {
        i := i + 1;
      }
    }
  }

  /** Start and length, with its space, of the argument of the letter at `modePos`. */
  method FindArg(serv: Server, s: string, letters: nat, modePos: nat) returns (offset: nat, length: nat)
    requires modePos < letters <= |s|
    ensures (offset, length) == ArgSpan(serv, s, letters, modePos)
  {
    var argumentNum := CountUpTo(serv, s, modePos);
    offset := FindSpace(s, letters, argumentNum);
    length := 0;
    if offset < |s| {
      length := ArgLength(s, offset);
    }
  }

  /** How many letters up to the mode's own take an argument. */
  method CountUpTo(serv: Server, s: string, modePos: nat) returns (argumentNum: nat)
    requires modePos < |s|
    ensures argumentNum == CountArgs(serv, s[..modePos + 1])
  {
    hide HasArg;
    argumentNum := 0;
    var i := 0;
    ghost var prefix := s[..modePos + 1];
    assert prefix[0..] == prefix;
    while i <= modePos
      invariant 0 <= i <= modePos + 1
      invariant CountArgs(serv, prefix) == argumentNum + CountArgs(serv, prefix[i..])
    {
      assert prefix[i..][0] == s[i] && prefix[i..][1..] == prefix[i + 1..];
      var takes := ModeHasArg(serv, '+', s[i]);
      if takes {
        argumentNum := argumentNum + 1;
      }
      i := i + 1;
    }
    assert prefix[i..] == "";
  }

  /** Where the argument with that number starts. */
  method FindSpace(s: string, letters: nat, argumentNum: nat) returns (offset: nat)
    requires letters <= |s|
    ensures letters <= offset <= |s| && offset == letters + NthSpace(s[letters..], argumentNum)
  {
    offset := letters;
    var i := 0;
    while i < argumentNum && offset < |s|
      invariant 0 <= i <= argumentNum && letters <= offset <= |s|
      invariant letters + NthSpace(s[letters..], argumentNum) == offset + NthSpace(s[offset..], argumentNum - i)
      decreases argumentNum - i, |s| - offset
    {
      assert s[offset..][0] == s[offset] && s[offset..][1..] == s[offset + 1..];
      if s[offset] == ' ' {
        i := i + 1;
      }
      if i != argumentNum {
        offset := offset + 1;
      }
    }
  }

  /** Length of the argument whose space is at `offset`, the space included. */
  method ArgLength(s: string, offset: nat) returns (length: nat)
    requires offset < |s|
    ensures length == 1 + ToSpace(s[offset + 1..])
  {
    length := 1;
    var at := offset + 1;
    while at < |s| && s[at] != ' '
      invariant offset < at <= |s| && length == at - offset
      invariant 1 + ToSpace(s[offset + 1..]) == length + ToSpace(s[at..])
    {
      assert s[at..][0] == s[at] && s[at..][1..] == s[at + 1..];
      length := length + 1;
      at := at + 1;
    }
  }

  /** `currentModes` is None while no mode was ever recorded. */
  class ChannelSession {
    var currentModes: Option<string>

    function Text(): string
      reads this
    {
      if currentModes.Some? then currentModes.value else ""
    }

    /** record_chan_mode. */
    method RecordChanMode(serv: Server, sign: char, mode: char, arg: string)
      modifies this
      ensures Text() == Edit(serv, old(Text()), sign, mode, arg)
    {
      hide HasArg, ToSpace, FindLetter, ArgSpan, Erase, Insert;
      var current := if currentModes.Some? then currentModes.value else "";
      var letters := LettersLength(current);
      var modePos := FindMode(current, letters, mode);
      var takes := ModeHasArg(serv, '+', mode);
      var offset: int, length: int := 0, 0;
      if modePos != -1 && takes {
        offset, length := FindArg(serv, current, letters, modePos);
      }
      if sign == '+' {
        if modePos != -1 {
          if takes {
            current := Erase(current, offset + 1, length - 1);
            current := Insert(current, offset + 1, arg);
            currentModes := Some(current);
          }
        } else {
          current := Insert(current, letters, [mode]);
          if takes {
            current := current + " ";
            current := current + arg;
          }
          currentModes := Some(current);
        }
      } else if sign == '-' && modePos != -1 {
        if takes {
          current := Erase(current, offset, length);
        }
        current := Erase(current, modePos, 1);
        currentModes := Some(current);
      }
    }
  }

  // ----- the edited string refines the map -----

  lemma {:induction false} ArgsAppend(a: seq<Mode>, b: seq<Mode>)
    ensures Args(a + b) == Args(a) + Args(b)
  {
    if a == [] {
      assert a + b == b;
    } else {
      assert (a + b)[1..] == a[1..] + b;
      ArgsAppend(a[1..], b);
    }
  }

  lemma {:induction false} ArgsStart(ms: seq<Mode>)
    ensures Args(ms) == "" || Args(ms)[0] == ' '
  {
    if ms != [] {
      ArgsStart(ms[1..]);
    }
  }

  lemma {:induction false} ToSpaceOver(a: string, b: string)
    requires ' ' !in a && (b == "" || b[0] == ' ')
    ensures ToSpace(a + b) == |a|
  {
    if a == "" {
      assert a + b == b;
    } else {
      assert (a + b)[1..] == a[1..] + b;
      ToSpaceOver(a[1..], b);
    }
  }

  lemma LettersEnd(serv: Server, ms: seq<Mode>)
    requires WellFormed(serv, ms)
    ensures ToSpace(Render(ms)) == |ms|
  {
    ArgsStart(ms);
    forall i | 0 <= i < |ms| ensures Letters(ms)[i] != ' ' {
      assert ModeOk(serv, ms[i]);
    }
    ToSpaceOver(Letters(ms), Args(ms));
  }

  lemma {:induction false} FindsPosition(ms: seq<Mode>, letter: char)
    ensures FindLetter(Letters(ms), letter) == Position(ms, letter)
  {
    if ms != [] {
      assert Letters(ms)[1..] == Letters(ms[1..]);
      FindsPosition(ms[1..], letter);
    }
  }

  lemma {:induction false} NthSpaceOver(a: string, b: string, n: nat)
    requires ' ' !in a && n > 0
    ensures NthSpace(a + b, n) == |a| + NthSpace(b, n)
  {
    if a == "" {
      assert a + b == b;
    } else {
      assert (a + b)[1..] == a[1..] + b;
      NthSpaceOver(a[1..], b, n);
    }
  }

  lemma NthSpaceSkips(m: Mode, rest: string, n: nat)
    requires m.arg.Some? && ' ' !in m.arg.value && n > 1
    ensures NthSpace(ArgText(m) + rest, n) == |ArgText(m)| + NthSpace(rest, n - 1)
  {
    assert (ArgText(m) + rest)[1..] == m.arg.value + rest;
    NthSpaceOver(m.arg.value, rest, n - 1);
  }

  lemma CountSteps(serv: Server, ms: seq<Mode>, p: nat)
    requires 0 < p <= |ms|
    ensures CountArgs(serv, Letters(ms)[..p]) ==
            (if HasArg(serv, '+', ms[0].letter) then 1 else 0) + CountArgs(serv, Letters(ms[1..])[..p - 1])
  {
    assert Letters(ms)[..p][1..] == Letters(ms[1..])[..p - 1];
  }

  /** The n-th space opens the argument of the n-th letter that takes one. */
  lemma {:induction false} SpaceOfArg(serv: Server, ms: seq<Mode>, p: nat)
    requires (forall m <- ms :: ModeOk(serv, m)) && p < |ms| && ms[p].arg.Some?
    ensures CountArgs(serv, Letters(ms)[..p + 1]) > 0
    ensures NthSpace(Args(ms), CountArgs(serv, Letters(ms)[..p + 1])) == |Args(ms[..p])|
    decreases p
  {
    hide HasArg, CountArgs, NthSpace;
    assert ModeOk(serv, ms[0]) && ModeOk(serv, ms[p]);
    CountSteps(serv, ms, p + 1);
    if p == 0 {
      NoLetters(serv, ms[1..]);
      FirstSpace(Args(ms));
    } else {
      SpaceOfArg(serv, ms[1..], p - 1);
      assert ms[..p][1..] == ms[1..][..p - 1];
      if ms[0].arg.Some? {
        NthSpaceSkips(ms[0], Args(ms[1..]), CountArgs(serv, Letters(ms)[..p + 1]));
      } else {
        assert Args(ms) == Args(ms[1..]);
      }
    }
  }

  lemma NoLetters(serv: Server, ms: seq<Mode>)
    ensures CountArgs(serv, Letters(ms)[..0]) == 0
  {
  }

  lemma FirstSpace(s: string)
    requires s != "" && s[0] == ' '
    ensures NthSpace(s, 1) == 0
  {
  }

  /** The parts of the rendered text around the mode at `p`. */
  lemma RenderAround(ms: seq<Mode>, p: nat)
    requires p < |ms|
    ensures Args(ms) == Args(ms[..p]) + ArgText(ms[p]) + Args(ms[p + 1..])
  {
    hide Args, ArgText;
    assert ms == ms[..p] + ms[p..] && ms[p..][1..] == ms[p + 1..];
    ArgsAppend(ms[..p], ms[p..]);
    ArgsStep(ms[p..]);
    assert Args(ms[..p]) + (ArgText(ms[p]) + Args(ms[p + 1..])) == Args(ms[..p]) + ArgText(ms[p]) + Args(ms[p + 1..]);
  }

  lemma ArgsStep(ms: seq<Mode>)
    requires ms != []
    ensures Args(ms) == ArgText(ms[0]) + Args(ms[1..])
  {
  }

  lemma RenderWithArg(ms: seq<Mode>, p: nat)
    requires p < |ms| && ms[p].arg.Some?
    ensures Render(ms) == Letters(ms) + Args(ms[..p]) + " " + ms[p].arg.value + Args(ms[p + 1..])
  {
    RenderAround(ms, p);
  }

  lemma SpanIsArg(serv: Server, ms: seq<Mode>, p: nat)
    requires WellFormed(serv, ms) && p < |ms| && ms[p].arg.Some?
    requires |ms| <= |Render(ms)|
    ensures ArgSpan(serv, Render(ms), |ms|, p) == (|ms| + |Args(ms[..p])|, 1 + |ms[p].arg.value|)
  {
    hide HasArg, WellFormed, Render, Args, CountArgs, NthSpace;
    var s := Render(ms);
    ModesOk(serv, ms);
    assert ModeOk(serv, ms[p]);
    RenderParts(ms);
    assert s[..p + 1] == Letters(ms)[..p + 1];
    SpaceOfArg(serv, ms, p);
    RenderWithArg(ms, p);
    ArgsStart(ms[p + 1..]);
    var start := |ms| + |Args(ms[..p])|;
    assert s[start + 1..] == ms[p].arg.value + Args(ms[p + 1..]);
    ToSpaceOver(ms[p].arg.value, Args(ms[p + 1..]));
  }

  lemma RenderParts(ms: seq<Mode>)
    ensures |ms| <= |Render(ms)| && Render(ms)[..|ms|] == Letters(ms) && Render(ms)[|ms|..] == Args(ms)
  {
  }

  /** What the scanning loops find in the text of a well-formed map. */
  lemma Scanned(serv: Server, ms: seq<Mode>, letter: char)
    requires WellFormed(serv, ms)
    ensures ToSpace(Render(ms)) == |ms| <= |Render(ms)|
    ensures FindLetter(Render(ms)[..|ms|], letter) == Position(ms, letter)
  {
    LettersEnd(serv, ms);
    FindsPosition(ms, letter);
    RenderParts(ms);
  }

  lemma ModesOk(serv: Server, ms: seq<Mode>)
    requires WellFormed(serv, ms)
    ensures forall m <- ms :: ModeOk(serv, m)
  {
  }

  lemma EditAppends(serv: Server, ms: seq<Mode>, letter: char, arg: string)
    requires WellFormed(serv, ms) && Position(ms, letter) == |ms|
    ensures Edit(serv, Render(ms), '+', letter, arg) == Render(Apply(serv, ms, '+', letter, arg))
  {
    hide HasArg, WellFormed;
    Scanned(serv, ms, letter);
    var m := Mode(letter, if HasArg(serv, '+', letter) then Some(arg) else None);
    ArgsAppend(ms, [m]);
    assert [m][1..] == [];
    assert Letters(ms + [m]) == Letters(ms) + [letter];
    RenderParts(ms);
  }

  lemma RenderUpdated(ms: seq<Mode>, p: nat, arg: string)
    requires p < |ms|
    ensures Render(ms[p := Mode(ms[p].letter, Some(arg))]) == Letters(ms) + Args(ms[..p]) + " " + arg + Args(ms[p + 1..])
  {
    var ms' := ms[p := Mode(ms[p].letter, Some(arg))];
    RenderWithArg(ms', p);
    assert ms'[..p] == ms[..p] && ms'[p + 1..] == ms[p + 1..];
    assert Letters(ms') == Letters(ms);
  }

  lemma ReplaceMiddle(a: string, b: string, c: string, b': string)
    ensures Insert(Erase(a + b + c, |a|, |b|), |a|, b') == a + b' + c
  {
    EraseMiddle(a, b, c);
  }

  lemma EraseMiddle(a: string, b: string, c: string)
    ensures Erase(a + b + c, |a|, |b|) == a + c
  {
  }

  lemma EditUpdates(serv: Server, ms: seq<Mode>, letter: char, arg: string)
    requires WellFormed(serv, ms) && Position(ms, letter) < |ms|
    ensures Edit(serv, Render(ms), '+', letter, arg) == Render(Apply(serv, ms, '+', letter, arg))
  {
    hide HasArg, WellFormed, ArgSpan, Render, Args, ToSpace, FindLetter, Erase, Insert;
    Scanned(serv, ms, letter);
    var p := Position(ms, letter);
    ModesOk(serv, ms);
    assert ModeOk(serv, ms[p]);
    if HasArg(serv, '+', letter) {
      SpanIsArg(serv, ms, p);
      RenderUpdated(ms, p, arg);
      RenderWithArg(ms, p);
      ReplaceMiddle(Letters(ms) + Args(ms[..p]) + " ", ms[p].arg.value, Args(ms[p + 1..]), arg);
    }
  }

  /** The text once the argument is cut out, if there was one. */
  lemma ArgumentCut(serv: Server, ms: seq<Mode>, p: nat)
    requires WellFormed(serv, ms) && p < |ms| && |ms| <= |Render(ms)|
    ensures
      (if HasArg(serv, '+', ms[p].letter) then
         var (start, len) := ArgSpan(serv, Render(ms), |ms|, p);
         Erase(Render(ms), start, len)
       else Render(ms))
      == Letters(ms) + Args(ms[..p]) + Args(ms[p + 1..])
  {
    hide HasArg, WellFormed, ArgSpan, Args, Erase;
    ModesOk(serv, ms);
    assert ModeOk(serv, ms[p]);
    RenderAround(ms, p);
    var a, b := Args(ms[..p]), Args(ms[p + 1..]);
    assert Render(ms) == Letters(ms) + a + ArgText(ms[p]) + b by {
      assert Letters(ms) + (a + ArgText(ms[p]) + b) == Letters(ms) + a + ArgText(ms[p]) + b;
    }
    if HasArg(serv, '+', ms[p].letter) {
      SpanIsArg(serv, ms, p);
      EraseMiddle(Letters(ms) + Args(ms[..p]), ArgText(ms[p]), Args(ms[p + 1..]));
    }
  }

  lemma LetterCut(ms: seq<Mode>, p: nat)
    requires p < |ms|
    ensures Erase(Letters(ms) + Args(ms[..p]) + Args(ms[p + 1..]), p, 1) == Render(ms[..p] + ms[p + 1..])
  {
    hide Args, Erase;
    var ms' := ms[..p] + ms[p + 1..];
    ArgsAppend(ms[..p], ms[p + 1..]);
    var tail := Letters(ms)[p + 1..] + Args(ms');
    assert Letters(ms) + Args(ms[..p]) + Args(ms[p + 1..]) == Letters(ms)[..p] + [ms[p].letter] + tail;
    EraseMiddle(Letters(ms)[..p], [ms[p].letter], tail);
    assert Letters(ms') == Letters(ms)[..p] + Letters(ms)[p + 1..];
    assert Letters(ms)[..p] + tail == Letters(ms') + Args(ms');
  }

  lemma EditRemoves(serv: Server, ms: seq<Mode>, letter: char, arg: string)
    requires WellFormed(serv, ms) && Position(ms, letter) < |ms|
    ensures Edit(serv, Render(ms), '-', letter, arg) == Render(Apply(serv, ms, '-', letter, arg))
  {
    hide HasArg, WellFormed, ArgSpan, Render, Args, ToSpace, FindLetter, Erase, Insert;
    Scanned(serv, ms, letter);
    ArgumentCut(serv, ms, Position(ms, letter));
    LetterCut(ms, Position(ms, letter));
  }

  /** Editing the text of a well-formed map gives the text of the changed map. */
  lemma EditRefinesApply(serv: Server, ms: seq<Mode>, sign: char, letter: char, arg: string)
    requires WellFormed(serv, ms)
    ensures Edit(serv, Render(ms), sign, letter, arg) == Render(Apply(serv, ms, sign, letter, arg))
  {
    hide HasArg, WellFormed, ArgSpan, Render, ToSpace, FindLetter, Insert, Erase;
    Scanned(serv, ms, letter);
    if sign == '+' {
      if Position(ms, letter) == |ms| {
        EditAppends(serv, ms, letter, arg);
      } else {
        EditUpdates(serv, ms, letter, arg);
      }
    } else if sign == '-' && Position(ms, letter) < |ms| {
      EditRemoves(serv, ms, letter, arg);
    }
  }

  // ----- reading the string back -----

  /** The arguments after the letters, split at single spaces. */
  function Fields(s: string): seq<string> {
    if s == "" then []
    else
      var n := ToSpace(s[1..]);
      [s[1..1 + n]] + Fields(s[1 + n..])
  }

  /** Give each letter that takes one the next argument. */
  function Pair(serv: Server, letters: string, args: seq<string>): seq<Mode> {
    if letters == "" then []
    else if HasArg(serv, '+', letters[0]) && args != [] then
      [Mode(letters[0], Some(args[0]))] + Pair(serv, letters[1..], args[1..])
    else [Mode(letters[0], None)] + Pair(serv, letters[1..], args)
  }

  function Parse(serv: Server, s: string): seq<Mode> {
    Pair(serv, s[..ToSpace(s)], Fields(s[ToSpace(s)..]))
  }

  lemma FieldsStep(a: string, rest: string)
    requires ' ' !in a && (rest == "" || rest[0] == ' ')
    ensures Fields(" " + a + rest) == [a] + Fields(rest)
  {
    var s := " " + a + rest;
    assert s[1..] == a + rest;
    ToSpaceOver(a, rest);
    assert s[1..1 + |a|] == a && s[1 + |a|..] == rest;
  }

  lemma {:induction false} PairUndoes(serv: Server, ms: seq<Mode>)
    requires forall m <- ms :: ModeOk(serv, m)
    ensures Pair(serv, Letters(ms), Fields(Args(ms))) == ms
  {
    hide HasArg, Fields, ToSpace;
    if ms == [] {
    } else {
      PairUndoes(serv, ms[1..]);
      assert ModeOk(serv, ms[0]);
      assert Letters(ms)[1..] == Letters(ms[1..]);
      if ms[0].arg.Some? {
        ArgsStart(ms[1..]);
        FieldsStep(ms[0].arg.value, Args(ms[1..]));
        assert Fields(Args(ms))[1..] == Fields(Args(ms[1..]));
      } else {
        assert Args(ms) == Args(ms[1..]);
      }
    }
  }

  /** Splitting the text gives the ordered map back, argument by argument. */
  lemma ParseUndoesRender(serv: Server, ms: seq<Mode>)
    requires WellFormed(serv, ms)
    ensures Parse(serv, Render(ms)) == ms
  {
    LettersEnd(serv, ms);
    PairUndoes(serv, ms);
    assert Render(ms)[..|ms|] == Letters(ms) && Render(ms)[|ms|..] == Args(ms);
  }

  // ----- runs -----

  datatype Change = Change(sign: char, letter: char, arg: string)

  predicate Plain(c: Change) {
    c.letter != ' ' && ' ' !in c.arg
  }

  function EditAll(serv: Server, s: string, changes: seq<Change>): string {
    if changes == [] then s
    else
      var last := changes[|changes| - 1];
      Edit(serv, EditAll(serv, s, changes[..|changes| - 1]), last.sign, last.letter, last.arg)
  }

  function ApplyAll(serv: Server, ms: seq<Mode>, changes: seq<Change>): seq<Mode> {
    if changes == [] then ms
    else
      var last := changes[|changes| - 1];
      Apply(serv, ApplyAll(serv, ms, changes[..|changes| - 1]), last.sign, last.letter, last.arg)
  }

  /** After any run of recorded changes with space-free arguments, splitting
      the flat string gives exactly the ordered map that plain insertion,
      update and removal give. */
  lemma {:induction false} ModeStringRefinesMap(serv: Server, ms: seq<Mode>, changes: seq<Change>)
    requires WellFormed(serv, ms) && forall c <- changes :: Plain(c)
    ensures WellFormed(serv, ApplyAll(serv, ms, changes))
    ensures EditAll(serv, Render(ms), changes) == Render(ApplyAll(serv, ms, changes))
    ensures Parse(serv, EditAll(serv, Render(ms), changes)) == ApplyAll(serv, ms, changes)
  {
    hide WellFormed, Edit, Apply, Render, Parse;
    if changes != [] {
      var init, last := changes[..|changes| - 1], changes[|changes| - 1];
      assert last in changes && forall c <- init :: c in changes;
      ModeStringRefinesMap(serv, ms, init);
      ApplyWellFormed(serv, ApplyAll(serv, ms, init), last.sign, last.letter, last.arg);
      EditRefinesApply(serv, ApplyAll(serv, ms, init), last.sign, last.letter, last.arg);
    }
    ParseUndoesRender(serv, ApplyAll(serv, ms, changes));
  }
}
