/** The table of open batches in the program's own form. */
module BatchTable {
  import opened Wrappers
  import opened B = Batches

  lemma {:induction false} JoinAppend(lines: seq<string>, last: string)
    requires lines != []
    ensures Join(lines + [last]) == Join(lines) + "\n" + last
  {
    if |lines| == 1 {
      assert (lines + [last])[1..] == [last];
    } else {
      assert (lines + [last])[1..] == lines[1..] + [last];
      JoinAppend(lines[1..], last);
    }
  }

  lemma JoinOne(text: string)
    ensures Join([]) == "" && Join([text]) == text && [] + [text] == [text]
  {
  }

  lemma GatherStep(lines: seq<string>, msgs: seq<Message>)
    requires msgs != []
    ensures lines + Texts(msgs) ==
            (if HasText(msgs[0]) then lines + [TextOf(msgs[0])] else lines) + Texts(msgs[1..])
    ensures FirstPrivmsg(msgs) == if IsPrivmsg(msgs[0]) then Some(msgs[0]) else FirstPrivmsg(msgs[1..])
    ensures HasText(msgs[0]) ==> IsPrivmsg(msgs[0])
  {
    assert [] + Texts(msgs[1..]) == Texts(msgs[1..]);
  }

  lemma GatherEnd(lines: seq<string>, msgs: seq<Message>)
    requires msgs == []
    ensures lines + Texts(msgs) == lines && FirstPrivmsg(msgs) == None
    ensures Join([]) == ""
  {
  }

  /** collapse_multiline_to_parent: the message to append, if any. */
  method CollapseMultiline(batch: Batch) returns (result: seq<Message>)
    ensures result == Collapsed(batch.header, batch.messages)
  {
    hide HasText, IsPrivmsg, TextOf, Texts, Join, FirstPrivmsg;
    var msgs := batch.messages;
    var combined, firstLine, first := "", true, None;
    ghost var lines: seq<string> := [];
    JoinOne("");
    assert msgs[0..] == msgs;
    var i := 0;
    while i < |msgs|
      invariant 0 <= i <= |msgs|
      invariant Texts(msgs) == lines + Texts(msgs[i..])
      invariant combined == Join(lines) && (firstLine <==> lines == [])
      invariant FirstPrivmsg(msgs) == if first.Some? then first else FirstPrivmsg(msgs[i..])
    {
      var msg := msgs[i];
      assert msgs[i..][0] == msg && msgs[i..][1..] == msgs[i + 1..];
      GatherStep(lines, msgs[i..]);
      if IsPrivmsg(msg) {
        if first.None? {
          first := Some(msg);
        }
      }
      if HasText(msg) {
        var text := TextOf(msg);
        if !firstLine {
          JoinAppend(lines, text);
          combined := combined + "\n";
        } else {
          JoinOne(text);
        }
        firstLine := false;
        combined := combined + text;
        lines := lines + [text];
      }
      i := i + 1;
    }
    GatherEnd(lines, msgs[i..]);
    assert Texts(msgs) == lines;
    if |combined| == 0 || first.None? {
      return [];
    }
    var target := if |batch.header.params| >= 1 then batch.header.params[0] else "";
    var ts := if batch.header.serverTime != 0 then batch.header.serverTime else first.value.ts;
    var msgid := if batch.header.msgid.Some? then batch.header.msgid else first.value.msgid;
    return [Message(first.value.prefix, "PRIVMSG", [target, ":" + combined], ts, msgid, first.value.tags)];
  }

  class BatchServer {
    var active: map<Id, Batch>
    ghost var handed: seq<(Header, seq<Message>)>
    ghost var live: seq<Message>

    ghost function View(): Table
      reads this
    {
      Table(active, handed, live)
    }

    method InboundBatchStart(id: Id, header: Header, outer: Option<Id>)
      modifies this
      ensures View() == StartBatch(old(View()), id, header, outer)
    {
      if id in active {
        return;
      }
      active := active[id := Batch(header, outer, [])];
    }

    /** True when the line was added to a batch and must not be handled now. */
    method InboundBatchAddMessage(tag: Option<Id>, msg: Message) returns (added: bool)
      modifies this
      ensures View() == AddLine(old(View()), tag, msg)
      ensures added <==> tag.Some? && tag.value in old(active) && Collects(old(active)[tag.value].header.kind)
    {
      if tag.None? || tag.value !in active {
        live := live + [msg];
        return false;
      }
      var batch := active[tag.value];
      if batch.header.kind == Persistence {
        live := live + [msg];
        return false;
      }
      if batch.header.kind != Chathistory && batch.header.kind != Targets && batch.header.kind != Multiline {
        live := live + [msg];
        return false;
      }
      active := active[tag.value := batch.(messages := batch.messages + [msg])];
      return true;
    }

    method InboundBatchEnd(id: Id)
      modifies this
      ensures View() == EndBatch(old(View()), id)
    {
      hide Collapsed;
      if id !in active {
        return;
      }
      var batch := active[id];
      match batch.header.kind {
        case Chathistory => handed := handed + [(batch.header, batch.messages)];
        case Targets => handed := handed + [(batch.header, batch.messages)];
        case Multiline =>
          if batch.outer.Some? && batch.outer.value in active {
            var parent := batch.outer.value;
            var result := CollapseMultiline(batch);
            active := active[parent := active[parent].(messages := active[parent].messages + result)];
          } else {
            handed := handed + [(batch.header, batch.messages)];
          }
        case _ =>
      }
      active := active - {id};
    }
  }
}
