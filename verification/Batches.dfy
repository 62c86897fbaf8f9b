/**
 BATCH collection: lines tagged with an open batch are held back until it
 closes, and a multiline batch nested in another becomes one message of its
 parent.
 */
module Batches {
  import opened Wrappers

  type Id = string

  datatype Message = Message(prefix: string, command: string, params: seq<string>, ts: int,
                             msgid: Option<string>, tags: map<string, string>)

  /** Persistence is the bouncer's channel-state burst, Replay its wrapper
      around replayed batches. */
  datatype Kind = Chathistory | Targets | Multiline | Persistence | Replay | Other

  /** The BATCH start line. */
  datatype Header = Header(kind: Kind, params: seq<string>, msgid: Option<string>, serverTime: int)

  datatype Batch = Batch(header: Header, outer: Option<Id>, messages: seq<Message>)

  /** `handed` is what closed batches gave to their processing, `live` the
      lines that were not held back. */
  datatype Table = Table(active: map<Id, Batch>, handed: seq<(Header, seq<Message>)>, live: seq<Message>)

  predicate Collects(kind: Kind) {
    kind == Chathistory || kind == Targets || kind == Multiline
  }

  // ----- collapsing a multiline batch -----

  function Lower(c: char): char {
    if 'A' <= c <= 'Z' then 'a' + (c - 'A') else c
  }

  /** g_ascii_strcasecmp finds no difference. */
  predicate SameName(a: string, b: string) {
    |a| == |b| && forall i | 0 <= i < |a| :: Lower(a[i]) == Lower(b[i])
  }

  predicate IsPrivmsg(m: Message) {
    SameName(m.command, "PRIVMSG")
  }

  predicate HasText(m: Message) {
    IsPrivmsg(m) && |m.params| >= 2
  }

  function TextOf(m: Message): string
    requires HasText(m)
  {
    if m.params[1] != "" && m.params[1][0] == ':' then m.params[1][1..] else m.params[1]
  }

  /** The text lines of a batch, in order. */
  function Texts(msgs: seq<Message>): seq<string> {
    if msgs == [] then []
    else (if HasText(msgs[0]) then [TextOf(msgs[0])] else []) + Texts(msgs[1..])
  }

  function Join(lines: seq<string>): string {
    if lines == [] then ""
    else if |lines| == 1 then lines[0]
    else lines[0] + "\n" + Join(lines[1..])
  }

  function FirstPrivmsg(msgs: seq<Message>): (r: Option<Message>)
    ensures r.None? <==> forall m <- msgs :: !IsPrivmsg(m)
  {
    if msgs == [] then None else if IsPrivmsg(msgs[0]) then Some(msgs[0]) else FirstPrivmsg(msgs[1..])
  }

  /** The one message a nested multiline batch becomes; none when it has no text. */
  function Collapsed(header: Header, msgs: seq<Message>): seq<Message> {
    var text := Join(Texts(msgs));
    var first := FirstPrivmsg(msgs);
    if text == "" || first.None? then []
    else
      [Message(first.value.prefix, "PRIVMSG", [if |header.params| >= 1 then header.params[0] else "", ":" + text],
               if header.serverTime != 0 then header.serverTime else first.value.ts,
               if header.msgid.Some? then header.msgid else first.value.msgid,
               first.value.tags)]
  }

  /** The text lines are those of the PRIVMSG lines that have a text, in order,
      each without one leading colon. */
  lemma {:induction false} TextsGrow(msgs: seq<Message>, m: Message)
    ensures Texts([]) == []
    ensures Texts(msgs + [m]) == Texts(msgs) +
      if !SameName(m.command, "PRIVMSG") || |m.params| < 2 then []
      else if [':'] <= m.params[1] then [m.params[1][1..]] else [m.params[1]]
  {
    hide SameName;
    if msgs == [] {
      assert [] + [m] == [m];
    } else {
      assert (msgs + [m])[1..] == msgs[1..] + [m];
      TextsGrow(msgs[1..], m);
    }
  }

  lemma {:induction false} FirstPrivmsgIs(msgs: seq<Message>, i: nat)
    requires i < |msgs| && IsPrivmsg(msgs[i]) && forall j | 0 <= j < i :: !IsPrivmsg(msgs[j])
    ensures FirstPrivmsg(msgs) == Some(msgs[i])
  {
    hide IsPrivmsg;
    if i > 0 {
      assert !IsPrivmsg(msgs[0]);
      assert forall j | 0 <= j < i - 1 :: msgs[1..][j] == msgs[j + 1];
      FirstPrivmsgIs(msgs[1..], i - 1);
    }
  }

  /** The sender, the tags and, where the BATCH line has none, the time and the
      msgid of a collapsed message are those of its first PRIVMSG line; it goes
      where the BATCH line says.  Nothing comes of a batch without any text. */
  lemma CollapsedIs(header: Header, msgs: seq<Message>, i: nat)
    requires i < |msgs| && SameName(msgs[i].command, "PRIVMSG")
    requires forall j | 0 <= j < i :: !SameName(msgs[j].command, "PRIVMSG")
    ensures var texts := Texts(msgs); var c := Collapsed(header, msgs);
      (c == [] <==> |texts| <= 1 && forall t <- texts :: t == "") &&
      (c != [] ==>
        |c| == 1 && c[0].prefix == msgs[i].prefix && c[0].tags == msgs[i].tags && c[0].command == "PRIVMSG" &&
        |c[0].params| == 2 && c[0].params[1] == ":" + Join(texts) &&
        c[0].params[0] == (if header.params == [] then "" else header.params[0]) &&
        c[0].ts == (if header.serverTime == 0 then msgs[i].ts else header.serverTime) &&
        c[0].msgid == (if header.msgid.None? then msgs[i].msgid else header.msgid))
  {
    FirstPrivmsgIs(msgs, i);
    hide SameName, Texts;
    var texts := Texts(msgs);
    if |texts| == 1 {
      assert texts[0] in texts && forall t <- texts :: t == texts[0];
    } else if |texts| > 1 {
      assert |Join(texts)| >= 1;
    }
  }

  // ----- events -----

  datatype Event =
    | Start(id: Id, header: Header, outer: Option<Id>)
    | Line(tag: Option<Id>, msg: Message)
    | End(id: Id)

  /** inbound_batch_start: a second batch of the same id is refused. */
  function StartBatch(t: Table, id: Id, header: Header, outer: Option<Id>): Table {
    if id in t.active then t else t.(active := t.active[id := Batch(header, outer, [])])
  }

  /** inbound_batch_add_message; a line that is not collected is handled live. */
  function AddLine(t: Table, tag: Option<Id>, m: Message): Table {
    if tag.Some? && tag.value in t.active && Collects(t.active[tag.value].header.kind) then
      var b := t.active[tag.value];
      t.(active := t.active[tag.value := b.(messages := b.messages + [m])])
    else t.(live := t.live + [m])
  }

  function Append(active: map<Id, Batch>, id: Id, msgs: seq<Message>): map<Id, Batch>
    requires id in active
  {
    active[id := active[id].(messages := active[id].messages + msgs)]
  }

  /** inbound_batch_end. */
  function EndBatch(t: Table, id: Id): Table {
    if id !in t.active then t
    else
      var b := t.active[id];
      match b.header.kind
      case Chathistory => Table(t.active - {id}, t.handed + [(b.header, b.messages)], t.live)
      case Targets => Table(t.active - {id}, t.handed + [(b.header, b.messages)], t.live)
      case Multiline =>
        if b.outer.Some? && b.outer.value in t.active then
          t.(active := Append(t.active, b.outer.value, Collapsed(b.header, b.messages)) - {id})
        else Table(t.active - {id}, t.handed + [(b.header, b.messages)], t.live)
      case _ => t.(active := t.active - {id})
  }

  function Step(t: Table, e: Event): Table {
    match e
    case Start(id, header, outer) => StartBatch(t, id, header, outer)
    case Line(tag, m) => AddLine(t, tag, m)
    case End(id) => EndBatch(t, id)
  }

  function Run(t: Table, events: seq<Event>): Table
    decreases |events|
  {
    if events == [] then t else Run(Step(t, events[0]), events[1..])
  }

  lemma {:induction false} RunAppend(t: Table, a: seq<Event>, b: seq<Event>)
    ensures Run(t, a + b) == Run(Run(t, a), b)
    decreases |a|
  {
    hide Step;
    if a == [] {
      assert a + b == b;
    } else {
      assert (a + b)[1..] == a[1..] + b;
      RunAppend(Step(t, a[0]), a[1..], b);
    }
  }

  lemma RunOne(t: Table, e: Event)
    ensures Run(t, [e]) == Step(t, e)
  {
    hide Step;
    assert [e][1..] == [];
    assert Run(Step(t, e), []) == Step(t, e);
  }

  // ----- well-nested traffic -----

  /** What a batch contains: its own tagged lines and the batches inside it. */
  datatype Items =
    | Nil
    | Own(msg: Message, rest: Items)
    | Child(id: Id, header: Header, items: Items, rest: Items)

  function Wire(items: Items, id: Id): seq<Event>
    decreases items, 0
  {
    match items
    case Nil => []
    case Own(m, rest) => [Line(Some(id), m)] + Wire(rest, id)
    case Child(c, header, inner, rest) => WireBatch(c, header, Some(id), inner) + Wire(rest, id)
  }

  function WireBatch(id: Id, header: Header, outer: Option<Id>, items: Items): seq<Event>
    decreases items, 1
  {
    [Start(id, header, outer)] + (Wire(items, id) + [End(id)])
  }

  function Ids(items: Items): set<Id> {
    match items
    case Nil => {}
    case Own(_, rest) => Ids(rest)
    case Child(c, _, inner, rest) => {c} + Ids(inner) + Ids(rest)
  }

  /** Ids are not used twice at the same time: a nested batch never has the id
      of one it lies in. */
  predicate Proper(items: Items) {
    match items
    case Nil => true
    case Own(_, rest) => Proper(rest)
    case Child(c, _, inner, rest) => c !in Ids(inner) && Proper(inner) && Proper(rest)
  }

  /** What a batch of this kind holds when it closes: its own lines in wire
      order, and in their places the messages nested multiline batches become. */
  function Contents(kind: Kind, items: Items): seq<Message>
    decreases items
  {
    match items
    case Nil => []
    case Own(m, rest) => (if Collects(kind) then [m] else []) + Contents(kind, rest)
    case Child(_, header, inner, rest) =>
      (if header.kind == Multiline then Collapsed(header, Contents(Multiline, inner)) else []) + Contents(kind, rest)
  }

  /** What the batches inside hand over, innermost first. */
  function Handed(items: Items): seq<(Header, seq<Message>)> {
    match items
    case Nil => []
    case Own(_, rest) => Handed(rest)
    case Child(_, header, inner, rest) =>
      Handed(inner) +
      (if header.kind == Chathistory || header.kind == Targets then [(header, Contents(header.kind, inner))] else []) +
      Handed(rest)
  }

  /** The lines that are not held back, in wire order. */
  function Live(kind: Kind, items: Items): seq<Message>
    decreases items
  {
    match items
    case Nil => []
    case Own(m, rest) => (if Collects(kind) then [] else [m]) + Live(kind, rest)
    case Child(_, header, inner, rest) => Live(header.kind, inner) + Live(kind, rest)
  }

  predicate Ready(t: Table, id: Id, items: Items) {
    id in t.active && Proper(items) && Ids(items) !! t.active.Keys
  }

  /** The table after the items of an open batch went by. */
  function Passed(t: Table, id: Id, items: Items): Table
    requires id in t.active
  {
    var kind := t.active[id].header.kind;
    Table(Append(t.active, id, Contents(kind, items)), t.handed + Handed(items), t.live + Live(kind, items))
  }

  lemma PassedNothing(t: Table, id: Id)
    requires id in t.active
    ensures Passed(t, id, Nil) == t
  {
    var b := t.active[id];
    assert b.messages + [] == b.messages;
    assert t.active[id := b.(messages := b.messages)] == t.active;
  }

  lemma PassedOwn(t: Table, id: Id, m: Message, rest: Items)
    requires id in t.active
    ensures var t1 := AddLine(t, Some(id), m);
      id in t1.active && t1.active.Keys == t.active.Keys && Passed(t1, id, rest) == Passed(t, id, Own(m, rest))
  {
    hide Contents, Handed, Live;
    var kind := t.active[id].header.kind;
    var t1 := AddLine(t, Some(id), m);
    OwnContents(kind, m, rest);
    var a, b := Passed(t1, id, rest), Passed(t, id, Own(m, rest));
    if Collects(kind) {
      assert t.active[id].messages + [m] + Contents(kind, rest) == t.active[id].messages + ([m] + Contents(kind, rest));
      assert a.active == b.active;
      assert [] + Live(kind, rest) == Live(kind, rest);
    } else {
      assert t.live + [m] + Live(kind, rest) == t.live + ([m] + Live(kind, rest));
      assert [] + Contents(kind, rest) == Contents(kind, rest);
    }
  }

  lemma OwnContents(kind: Kind, m: Message, rest: Items)
    ensures Contents(kind, Own(m, rest)) == (if Collects(kind) then [m] else []) + Contents(kind, rest)
    ensures Live(kind, Own(m, rest)) == (if Collects(kind) then [] else [m]) + Live(kind, rest)
    ensures Handed(Own(m, rest)) == Handed(rest)
  {
  }

  /** A nested batch opened, filled and closed. */
  function Closed(t: Table, id: Id, c: Id, header: Header, inner: Items): Table
    requires id in t.active
  {
    Table(Append(t.active, id, if header.kind == Multiline then Collapsed(header, Contents(Multiline, inner)) else []),
          t.handed + (Handed(inner) +
            (if header.kind == Chathistory || header.kind == Targets then [(header, Contents(header.kind, inner))] else [])),
          t.live + Live(header.kind, inner))
  }

  lemma ClosedIs(t: Table, id: Id, c: Id, header: Header, inner: Items)
    requires id in t.active && c !in t.active
    ensures var t1 := StartBatch(t, c, header, Some(id));
      c in t1.active && EndBatch(Passed(t1, c, inner), c) == Closed(t, id, c, header, inner)
  {
    hide Contents, Handed, Live, Collapsed;
    var t1 := StartBatch(t, c, header, Some(id));
    var t2 := Passed(t1, c, inner);
    var msgs := Contents(header.kind, inner);
    assert t2.active[c] == Batch(header, Some(id), msgs) by {
      assert [] + msgs == msgs;
    }
    assert t2.active - {c} == t.active;
    var t3, goal := EndBatch(t2, c), Closed(t, id, c, header, inner);
    var b := t.active[id];
    assert b.messages + [] == b.messages && t.active[id := b] == t.active;
    if header.kind == Multiline {
      assert Append(t2.active, id, Collapsed(header, msgs)) - {c} == Append(t.active, id, Collapsed(header, msgs));
      assert Handed(inner) + [] == Handed(inner);
    } else if header.kind == Chathistory || header.kind == Targets {
      assert t.handed + Handed(inner) + [(header, msgs)] == t.handed + (Handed(inner) + [(header, msgs)]);
    } else {
      assert Handed(inner) + [] == Handed(inner);
    }
  }

  lemma PassedChild(t: Table, id: Id, c: Id, header: Header, inner: Items, rest: Items)
    requires id in t.active
    ensures var t1 := Closed(t, id, c, header, inner);
      id in t1.active && t1.active.Keys == t.active.Keys &&
      Passed(t1, id, rest) == Passed(t, id, Child(c, header, inner, rest))
  {
    hide Contents, Handed, Live, Collapsed;
    var kind := t.active[id].header.kind;
    var t1 := Closed(t, id, c, header, inner);
    ChildContents(kind, c, header, inner, rest);
    var one := if header.kind == Multiline then Collapsed(header, Contents(Multiline, inner)) else [];
    var msgs := t.active[id].messages;
    assert msgs + one + Contents(kind, rest) == msgs + (one + Contents(kind, rest));
    assert Append(t1.active, id, Contents(kind, rest)) == Append(t.active, id, one + Contents(kind, rest));
    var given := Handed(inner) +
      (if header.kind == Chathistory || header.kind == Targets then [(header, Contents(header.kind, inner))] else []);
    assert t.handed + given + Handed(rest) == t.handed + (given + Handed(rest));
    var l := Live(header.kind, inner);
    assert t.live + l + Live(kind, rest) == t.live + (l + Live(kind, rest));
  }

  lemma ChildContents(kind: Kind, c: Id, header: Header, inner: Items, rest: Items)
    ensures Contents(kind, Child(c, header, inner, rest)) ==
            (if header.kind == Multiline then Collapsed(header, Contents(Multiline, inner)) else []) + Contents(kind, rest)
    ensures Live(kind, Child(c, header, inner, rest)) == Live(header.kind, inner) + Live(kind, rest)
    ensures Handed(Child(c, header, inner, rest)) ==
            Handed(inner) +
            (if header.kind == Chathistory || header.kind == Targets then [(header, Contents(header.kind, inner))] else []) +
            Handed(rest)
  {
  }

  /** What an open batch has collected after any well-nested traffic inside it. */
  lemma {:induction false} NestedTraffic(t: Table, id: Id, items: Items)
    requires Ready(t, id, items)
    ensures Run(t, Wire(items, id)) == Passed(t, id, items)
    decreases items, 0
  {
    hide Passed, Closed, StartBatch, AddLine, EndBatch;
    match items
    case Nil => PassedNothing(t, id);
    case Own(m, rest) =>
      var t1 := AddLine(t, Some(id), m);
      PassedOwn(t, id, m, rest);
      NestedTraffic(t1, id, rest);
      assert Wire(items, id)[1..] == Wire(rest, id);
    case Child(c, header, inner, rest) =>
      ChildTraffic(t, id, c, header, inner, rest);
      PassedChild(t, id, c, header, inner, rest);
      NestedTraffic(Closed(t, id, c, header, inner), id, rest);
      RunAppend(t, WireBatch(c, header, Some(id), inner), Wire(rest, id));
  }

  lemma {:induction false} ChildTraffic(t: Table, id: Id, c: Id, header: Header, inner: Items, rest: Items)
    requires Ready(t, id, Child(c, header, inner, rest))
    ensures Run(t, WireBatch(c, header, Some(id), inner)) == Closed(t, id, c, header, inner)
    decreases inner, 1
  {
    hide Passed, Closed, EndBatch;
    var t1 := StartBatch(t, c, header, Some(id));
    NestedTraffic(t1, c, inner);
    ClosedIs(t, id, c, header, inner);
    BatchRun(t, c, header, Some(id), inner);
  }

  lemma BatchRun(t: Table, c: Id, header: Header, outer: Option<Id>, inner: Items)
    ensures Run(t, WireBatch(c, header, outer, inner)) == EndBatch(Run(StartBatch(t, c, header, outer), Wire(inner, c)), c)
  {
    hide EndBatch, StartBatch;
    var t1 := StartBatch(t, c, header, outer);
    var wire := WireBatch(c, header, outer, inner);
    assert wire[1..] == Wire(inner, c) + [End(c)];
    RunAppend(t1, Wire(inner, c), [End(c)]);
    RunOne(Run(t1, Wire(inner, c)), End(c));
  }

  /** A whole well-nested chathistory batch: it hands over exactly its own
      lines in wire order, each nested multiline batch as one message in its
      place; what lies deeper is handed over first; the open batches are as
      before. */
  lemma ClosedBatchHolds(t: Table, id: Id, header: Header, outer: Option<Id>, items: Items)
    requires header.kind == Chathistory && Proper(items) && id !in Ids(items)
    requires ({id} + Ids(items)) !! t.active.Keys
    ensures Run(t, WireBatch(id, header, outer, items)) ==
            Table(t.active, t.handed + Handed(items) + [(header, Contents(Chathistory, items))],
                  t.live + Live(Chathistory, items))
  {
    hide Contents, Handed, Live;
    var t1 := StartBatch(t, id, header, outer);
    NestedTraffic(t1, id, items);
    BatchRun(t, id, header, outer, items);
    var msgs := Contents(Chathistory, items);
    assert [] + msgs == msgs;
    assert Passed(t1, id, items).active - {id} == t.active;
  }

  /** Nothing of a chathistory batch is handled live unless it lies in a batch
      that is not collected. */
  predicate AllCollected(items: Items) {
    match items
    case Nil => true
    case Own(_, rest) => AllCollected(rest)
    case Child(_, header, inner, rest) => Collects(header.kind) && AllCollected(inner) && AllCollected(rest)
  }

  lemma {:induction false} NothingLive(kind: Kind, items: Items)
    requires Collects(kind) && AllCollected(items)
    ensures Live(kind, items) == []
    decreases items
  {
    match items
    case Nil =>
    case Own(_, rest) => NothingLive(kind, rest);
    case Child(_, header, inner, rest) =>
      NothingLive(header.kind, inner);
      NothingLive(kind, rest);
  }

  /** Traffic about other batches does not touch an open batch. */
  predicate Concerns(t: Table, e: Event, id: Id) {
    match e
    case Start(_, _, _) => false
    case Line(tag, _) => tag == Some(id)
    case End(c) => c == id || (c in t.active && t.active[c].outer == Some(id) && t.active[c].header.kind == Multiline)
  }

  lemma OthersDoNotDisturb(t: Table, e: Event, id: Id)
    requires id in t.active && !Concerns(t, e, id)
    ensures id in Step(t, e).active && Step(t, e).active[id] == t.active[id]
  {
    hide Collapsed;
  }

  /** A whole well-nested batch of any kind, directly on the connection. */
  lemma OuterBatchRun(t: Table, id: Id, header: Header, items: Items)
    requires Proper(items) && id !in Ids(items) && ({id} + Ids(items)) !! t.active.Keys
    ensures Run(t, WireBatch(id, header, None, items)) ==
            Table(t.active,
                  t.handed + Handed(items) + (if Collects(header.kind) then [(header, Contents(header.kind, items))] else []),
                  t.live + Live(header.kind, items))
  {
    hide Contents, Handed, Live;
    var t1 := StartBatch(t, id, header, None);
    NestedTraffic(t1, id, items);
    BatchRun(t, id, header, None, items);
    var msgs := Contents(header.kind, items);
    assert [] + msgs == msgs;
    assert Passed(t1, id, items).active - {id} == t.active;
    assert t.handed + Handed(items) + [] == t.handed + Handed(items);
  }

  /** The items hold a multiline batch, directly, that becomes the message `m`. */
  predicate HoldsMultiline(items: Items, m: Message) {
    match items
    case Nil => false
    case Own(_, rest) => HoldsMultiline(rest, m)
    case Child(_, header, inner, rest) =>
      (header.kind == Multiline && Collapsed(header, Contents(Multiline, inner)) == [m]) || HoldsMultiline(rest, m)
  }

  lemma {:induction false} HeldIsInContents(kind: Kind, items: Items, m: Message)
    requires HoldsMultiline(items, m)
    ensures m in Contents(kind, items)
    decreases items
  {
    match items
    case Nil =>
    case Own(_, rest) => HeldIsInContents(kind, rest, m);
    case Child(_, header, inner, rest) =>
      if HoldsMultiline(rest, m) {
        HeldIsInContents(kind, rest, m);
      }
  }

  /** The message of a nested multiline batch, wherever it stands in a batch of
      any kind, is handed on when the batch closes exactly if that kind is one
      whose collection is used: of another kind nothing is handed on but what
      the batches inside gave, and nothing is handled in its stead. */
  lemma NestedMultilineHandedIff(t: Table, id: Id, header: Header, items: Items, m: Message)
    requires Proper(items) && id !in Ids(items) && ({id} + Ids(items)) !! t.active.Keys && HoldsMultiline(items, m)
    ensures var t' := Run(t, WireBatch(id, header, None, items));
      var earlier := t.handed + Handed(items);
      earlier <= t'.handed &&
      ((exists given | given in t'.handed[|earlier|..] :: m in given.1) <==> Collects(header.kind)) &&
      (!Collects(header.kind) ==> t'.handed == earlier && t'.live == t.live + Live(header.kind, items))
  {
    hide Contents, Handed, Live, Collapsed, Run;
    OuterBatchRun(t, id, header, items);
    HeldIsInContents(header.kind, items, m);
    var earlier := t.handed + Handed(items);
    var own := (header, Contents(header.kind, items));
    if Collects(header.kind) {
      assert (earlier + [own])[|earlier|..] == [own];
      assert own in [own];
    } else {
      assert earlier[|earlier|..] == [];
    }
  }

  // ----- any interleaving -----

  /** The batch ids an event is about. */
  predicate About(e: Event, family: set<Id>) {
    match e
    case Start(id, _, _) => id in family
    case Line(tag, _) => tag.Some? && tag.value in family
    case End(id) => id in family
  }

  /** The events about a family of batches, in wire order. */
  function Project(events: seq<Event>, family: set<Id>): seq<Event> {
    if events == [] then []
    else (if About(events[0], family) then [events[0]] else []) + Project(events[1..], family)
  }

  /** The batches of the family are the same. */
  predicate Alike(a: map<Id, Batch>, b: map<Id, Batch>, family: set<Id>) {
    forall c <- family :: (c in a <==> c in b) && (c in a ==> a[c] == b[c])
  }

  /** No batch outside the family lies in one of it. */
  predicate Apart(active: map<Id, Batch>, family: set<Id>) {
    forall c <- active | c !in family :: active[c].outer.Some? ==> active[c].outer.value !in family
  }

  predicate StartsApart(e: Event, family: set<Id>) {
    e.Start? && e.id !in family && e.outer.Some? ==> e.outer.value !in family
  }

  lemma OthersLeaveFamily(t: Table, e: Event, family: set<Id>)
    requires Apart(t.active, family) && !About(e, family) && StartsApart(e, family)
    ensures Alike(Step(t, e).active, t.active, family) && Apart(Step(t, e).active, family)
  {
    hide Collapsed;
  }

  lemma FamilyStepsAlike(t: Table, u: Table, e: Event, family: set<Id>)
    requires About(e, family) && Apart(t.active, family) && Apart(u.active, family) && Alike(t.active, u.active, family)
    ensures Alike(Step(t, e).active, Step(u, e).active, family)
    ensures Apart(Step(t, e).active, family) && Apart(Step(u, e).active, family)
  {
    hide Collapsed;
  }

  /** However the traffic of a family of batches is interleaved with other
      traffic, its batches hold what they would hold if they were alone. */
  lemma {:induction false} ProjectionHolds(t: Table, u: Table, events: seq<Event>, family: set<Id>)
    requires Apart(t.active, family) && Apart(u.active, family) && Alike(t.active, u.active, family)
    requires forall e <- events :: StartsApart(e, family)
    ensures Alike(Run(t, events).active, Run(u, Project(events, family)).active, family)
    decreases |events|
  {
    hide Step, Alike, Apart, About, StartsApart;
    if events != [] {
      var e, rest := events[0], Project(events[1..], family);
      assert events == [e] + events[1..];
      if About(e, family) {
        FamilyStepsAlike(t, u, e, family);
        ProjectionHolds(Step(t, e), Step(u, e), events[1..], family);
        assert ([e] + rest)[1..] == rest;
      } else {
        OthersLeaveFamily(t, e, family);
        AlikeThen(Step(t, e).active, t.active, u.active, family);
        ProjectionHolds(Step(t, e), u, events[1..], family);
        assert [] + rest == rest;
      }
    }
  }

  lemma AlikeThen(a: map<Id, Batch>, b: map<Id, Batch>, c: map<Id, Batch>, family: set<Id>)
    requires Alike(a, b, family) && Alike(b, c, family)
    ensures Alike(a, c, family)
  {
  }

  /** An open batch holds exactly its own lines in wire order, and the messages
      its multiline children became in their places, whatever else goes by in
      between: the traffic of the batch and those inside it need only be well
      nested once the rest is left out. */
  lemma InterleavedTraffic(t: Table, id: Id, items: Items, events: seq<Event>)
    requires Ready(t, id, items) && Apart(t.active, {id} + Ids(items))
    requires forall e <- events :: StartsApart(e, {id} + Ids(items))
    requires Project(events, {id} + Ids(items)) == Wire(items, id)
    ensures var t' := Run(t, events);
      id in t'.active &&
      t'.active[id] == t.active[id].(messages := t.active[id].messages + Contents(t.active[id].header.kind, items))
  {
    hide Apart, Wire, Contents, StartsApart, Handed, Live;
    var family := {id} + Ids(items);
    SelfAlike(t.active, family);
    ProjectionHolds(t, t, events, family);
    NestedTraffic(t, id, items);
    assert id in family;
  }

  lemma SelfAlike(a: map<Id, Batch>, family: set<Id>)
    ensures Alike(a, a, family)
  {
  }

  // ----- the joined text -----

  function ToBreak(s: string): (n: nat)
    ensures n <= |s| && (n < |s| ==> s[n] == '\n')
  {
    if s == "" || s[0] == '\n' then 0 else 1 + ToBreak(s[1..])
  }

  function Lines(s: string): seq<string> {
    var n := ToBreak(s);
    if n == |s| then [s] else [s[..n]] + Lines(s[n + 1..])
  }

  lemma {:induction false} BreakAfter(a: string, b: string)
    requires '\n' !in a && (b == "" || b[0] == '\n')
    ensures ToBreak(a + b) == |a|
  {
    if a == "" {
      assert a + b == b;
    } else {
      assert (a + b)[1..] == a[1..] + b;
      BreakAfter(a[1..], b);
    }
  }

  /** Splitting the joined text at its newlines gives the lines back. */
  lemma {:induction false} LinesUndoJoin(lines: seq<string>)
    requires lines != [] && forall l <- lines :: '\n' !in l
    ensures Lines(Join(lines)) == lines
  {
    assert lines[0] in lines;
    if |lines| == 1 {
      assert lines[0] + "" == lines[0];
      BreakAfter(lines[0], "");
    } else {
      var rest := "\n" + Join(lines[1..]);
      assert lines[0] + "\n" + Join(lines[1..]) == lines[0] + rest;
      BreakAfter(lines[0], rest);
      assert forall l <- lines[1..] :: l in lines;
      LinesUndoJoin(lines[1..]);
      assert Join(lines)[..|lines[0]|] == lines[0] && Join(lines)[|lines[0]| + 1..] == Join(lines[1..]);
    }
  }
}
