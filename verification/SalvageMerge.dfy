/**
 Merging recovered backups into a live scrollback database.  The result is a
 union by key: every live row stays, a backup row comes in when its key is new.
 */
module SalvageMerge {
  import opened Wrappers

  /** A row of `messages`.  `owner` is the name its channel id stands for, None
      when the id is null; `rest` are the columns no key is made of. */
  datatype Row = Row(channel: string, owner: Option<string>, ts: int, msgid: Option<string>, text: string, rest: string)

  /** The live database: the channel names and the rows in id order. */
  datatype Db = Db(channels: set<string>, rows: seq<Row>)

  /** The channel name of a backup row: by its id, else its own column. */
  function ChannelOf(b: Row): string {
    if b.owner.Some? then b.owner.value else b.channel
  }

  /** The row as it is inserted. */
  function Imported(b: Row): Row {
    b.(channel := ChannelOf(b), owner := Some(ChannelOf(b)))
  }

  // ----- the two inserts -----

  /** The unique index on channel id and msgid, null ids apart, is violated. */
  predicate Clashes(rows: seq<Row>, r: Row) {
    exists x <- rows :: x.msgid.Some? && x.owner.Some? && x.owner == r.owner && x.msgid == r.msgid
  }

  /** INSERT OR IGNORE of the rows with a msgid, one after the other. */
  function InsertMarked(rows: seq<Row>, backup: seq<Row>): seq<Row>
    decreases |backup|
  {
    if backup == [] then rows
    else
      var b := backup[0];
      InsertMarked(if b.msgid.Some? && !Clashes(rows, Imported(b)) then rows + [Imported(b)] else rows, backup[1..])
  }

  /** An event row of the same channel, second and text is there. */
  predicate HasEvent(rows: seq<Row>, b: Row) {
    exists m <- rows :: m.msgid.None? && m.ts == b.ts && m.text == b.text && m.channel == ChannelOf(b)
  }

  /** The rows without a msgid that the second insert selects, all judged
      against the table as it was before the statement. */
  function NewEvents(rows: seq<Row>, backup: seq<Row>): seq<Row> {
    if backup == [] then []
    else
      (if backup[0].msgid.None? && !HasEvent(rows, backup[0]) then [Imported(backup[0])] else []) +
      NewEvents(rows, backup[1..])
  }

  function ChannelNames(backup: seq<Row>): set<string> {
    set b <- backup :: ChannelOf(b)
  }

  /** merge_backup, messages only. */
  function Merge(db: Db, backup: seq<Row>): Db {
    var rows := InsertMarked(db.rows, backup);
    Db(db.channels + ChannelNames(backup), rows + NewEvents(rows, backup))
  }

  function MergeAll(db: Db, backups: seq<seq<Row>>): Db
    decreases |backups|
  {
    if backups == [] then db else MergeAll(Merge(db, backups[0]), backups[1..])
  }

  // ----- keys -----

  /** Keys of the rows with a msgid; a row with a null channel id has none. */
  function Marks(rows: seq<Row>): set<(string, string)> {
    set r <- rows | r.msgid.Some? && r.owner.Some? :: (r.owner.value, r.msgid.value)
  }

  function Events(rows: seq<Row>): set<(string, int, string)> {
    set r <- rows | r.msgid.None? :: (r.channel, r.ts, r.text)
  }

  /** The keys a backup brings. */
  function BackupMarks(backup: seq<Row>): set<(string, string)> {
    set b <- backup | b.msgid.Some? :: (if b.owner.Some? then b.owner.value else b.channel, b.msgid.value)
  }

  function BackupEvents(backup: seq<Row>): set<(string, int, string)> {
    set b <- backup | b.msgid.None? :: (if b.owner.Some? then b.owner.value else b.channel, b.ts, b.text)
  }

  lemma MarkIn(rows: seq<Row>, b: Row)
    requires b.msgid.Some?
    ensures Clashes(rows, Imported(b)) <==> (ChannelOf(b), b.msgid.value) in Marks(rows)
  {
  }

  lemma EventIn(rows: seq<Row>, b: Row)
    ensures HasEvent(rows, b) <==> (ChannelOf(b), b.ts, b.text) in Events(rows)
  {
  }

  lemma MarksAppend(a: seq<Row>, b: seq<Row>)
    ensures Marks(a + b) == Marks(a) + Marks(b)
    ensures Events(a + b) == Events(a) + Events(b)
  {
    assert forall r :: r in a + b <==> r in a || r in b;
  }

  lemma {:induction false} InsertMarkedKeys(rows: seq<Row>, backup: seq<Row>)
    ensures Marks(InsertMarked(rows, backup)) == Marks(rows) + BackupMarks(backup)
    ensures Events(InsertMarked(rows, backup)) == Events(rows)
    decreases |backup|
  {
    hide Marks, Events, Clashes;
    if backup != [] {
      var b := backup[0];
      var rows1 := if b.msgid.Some? && !Clashes(rows, Imported(b)) then rows + [Imported(b)] else rows;
      InsertMarkedKeys(rows1, backup[1..]);
      MarksAppend(rows, [Imported(b)]);
      OneRow(b);
      BackupStep(backup);
      if b.msgid.Some? {
        MarkIn(rows, b);
      }
    }
  }

  lemma OneRow(b: Row)
    ensures Marks([Imported(b)]) == if b.msgid.Some? then {(ChannelOf(b), b.msgid.value)} else {}
    ensures Events([Imported(b)]) == if b.msgid.None? then {(ChannelOf(b), b.ts, b.text)} else {}
  {
    assert forall r :: r in [Imported(b)] <==> r == Imported(b);
  }

  lemma BackupStep(backup: seq<Row>)
    requires backup != []
    ensures var b := backup[0];
      BackupMarks(backup) == (if b.msgid.Some? then {(ChannelOf(b), b.msgid.value)} else {}) + BackupMarks(backup[1..]) &&
      BackupEvents(backup) == (if b.msgid.None? then {(ChannelOf(b), b.ts, b.text)} else {}) + BackupEvents(backup[1..])
  {
    assert forall x :: x in backup <==> x == backup[0] || x in backup[1..];
  }

  lemma {:induction false} NewEventKeys(rows: seq<Row>, backup: seq<Row>)
    ensures Marks(NewEvents(rows, backup)) == {}
    ensures Events(rows) + Events(NewEvents(rows, backup)) == Events(rows) + BackupEvents(backup)
  {
    hide Marks, Events, HasEvent;
    if backup == [] {
      NoRows();
    } else {
      var b := backup[0];
      var one := if b.msgid.None? && !HasEvent(rows, b) then [Imported(b)] else [];
      NewEventKeys(rows, backup[1..]);
      MarksAppend(one, NewEvents(rows, backup[1..]));
      OneRow(b);
      NoRows();
      BackupStep(backup);
      EventIn(rows, b);
    }
  }

  lemma NoRows()
    ensures Marks([]) == {} && Events([]) == {}
  {
  }

  /** The keys after a merge are the live keys and the backup's. */
  lemma MergeKeys(db: Db, backup: seq<Row>)
    ensures Marks(Merge(db, backup).rows) == Marks(db.rows) + BackupMarks(backup)
    ensures Events(Merge(db, backup).rows) == Events(db.rows) + BackupEvents(backup)
  {
    hide Marks, Events, InsertMarked, NewEvents;
    var rows := InsertMarked(db.rows, backup);
    InsertMarkedKeys(db.rows, backup);
    NewEventKeys(rows, backup);
    MarksAppend(rows, NewEvents(rows, backup));
  }

  function AllMarks(backups: seq<seq<Row>>): set<(string, string)> {
    set b <- backups, k <- BackupMarks(b) :: k
  }

  function AllEvents(backups: seq<seq<Row>>): set<(string, int, string)> {
    set b <- backups, k <- BackupEvents(b) :: k
  }

  /** Merging any list of backups yields the union of all keys. */
  lemma {:induction false} MergeAllKeys(db: Db, backups: seq<seq<Row>>)
    ensures Marks(MergeAll(db, backups).rows) == Marks(db.rows) + AllMarks(backups)
    ensures Events(MergeAll(db, backups).rows) == Events(db.rows) + AllEvents(backups)
    decreases |backups|
  {
    hide Marks, Events, Merge, BackupMarks, BackupEvents;
    if backups != [] {
      MergeKeys(db, backups[0]);
      MergeAllKeys(Merge(db, backups[0]), backups[1..]);
      assert forall b :: b in backups <==> b == backups[0] || b in backups[1..];
    }
  }

  /** So the order in which the backups are taken makes no difference to them. */
  lemma OrderDoesNotMatter(db: Db, backups: seq<seq<Row>>, others: seq<seq<Row>>)
    requires multiset(backups) == multiset(others)
    ensures Marks(MergeAll(db, backups).rows) == Marks(MergeAll(db, others).rows)
    ensures Events(MergeAll(db, backups).rows) == Events(MergeAll(db, others).rows)
  {
    hide Marks, Events, MergeAll, BackupMarks, BackupEvents;
    MergeAllKeys(db, backups);
    MergeAllKeys(db, others);
    assert forall b :: b in backups <==> b in multiset(backups);
    assert forall b :: b in others <==> b in multiset(others);
  }

  lemma {:induction false} InsertMarkedKeeps(rows: seq<Row>, backup: seq<Row>)
    ensures rows <= InsertMarked(rows, backup)
    decreases |backup|
  {
    if backup != [] {
      var b := backup[0];
      InsertMarkedKeeps(if b.msgid.Some? && !Clashes(rows, Imported(b)) then rows + [Imported(b)] else rows, backup[1..]);
    }
  }

  /** Every live row stays, unchanged and in its place. */
  lemma {:induction false} LiveRowsStay(db: Db, backups: seq<seq<Row>>)
    ensures db.rows <= MergeAll(db, backups).rows
    decreases |backups|
  {
    hide InsertMarked, NewEvents;
    if backups != [] {
      InsertMarkedKeeps(db.rows, backups[0]);
      LiveRowsStay(Merge(db, backups[0]), backups[1..]);
    }
  }

  // ----- what the added rows hold -----

  /** Row `r` says what backup row `x` says, filed under the name that x's
      channel id stands for, or under x's own column without one. */
  predicate SaysWhat(x: Row, r: Row) {
    r.ts == x.ts && r.msgid == x.msgid && r.text == x.text && r.rest == x.rest &&
    r.owner == Some(r.channel) && r.channel == if x.owner.Some? then x.owner.value else x.channel
  }

  /** Backup row `i` is where a row with the msgid of `r` comes from: its key is
      not among the live ones, and it is the first of the backup to have it. */
  predicate FirstOfKey(live: set<(string, string)>, backup: seq<Row>, i: nat, r: Row)
    requires i < |backup| && r.msgid.Some?
  {
    SaysWhat(backup[i], r) && (r.channel, r.msgid.value) !in live &&
    forall j | 0 <= j < i && backup[j].msgid == r.msgid ::
      (if backup[j].owner.Some? then backup[j].owner.value else backup[j].channel) != r.channel
  }

  /** How many rows of the backup `r` can come from. */
  function Times(backup: seq<Row>, r: Row): nat {
    if backup == [] then 0 else (if SaysWhat(backup[0], r) then 1 else 0) + Times(backup[1..], r)
  }

  lemma {:induction false} InsertMarkedAdds(rows: seq<Row>, backup: seq<Row>, r: Row)
    requires r.msgid.Some?
    ensures rows <= InsertMarked(rows, backup)
    ensures r in InsertMarked(rows, backup)[|rows|..] <==>
            exists i | 0 <= i < |backup| :: FirstOfKey(Marks(rows), backup, i, r)
    decreases |backup|
  {
    hide Marks, Clashes, FirstOfKey;
    if backup != [] {
      var b := backup[0];
      var one := if b.msgid.Some? && !Clashes(rows, Imported(b)) then [Imported(b)] else [];
      var rest := backup[1..];
      assert rows + [] == rows;
      InsertMarkedAdds(rows + one, rest, r);
      var all := InsertMarked(rows, backup);
      assert all == InsertMarked(rows + one, rest);
      assert all[|rows|..] == one + all[|rows + one|..];
      MarksAppend(rows, one);
      FirstOfKeyHere(rows, backup, one, r);
      FirstOfKeySplits(rows, backup, one, r);
    }
  }

  lemma FirstOfKeySplits(rows: seq<Row>, backup: seq<Row>, one: seq<Row>, r: Row)
    requires r.msgid.Some? && backup != []
    requires one == if backup[0].msgid.Some? && !Clashes(rows, Imported(backup[0])) then [Imported(backup[0])] else []
    ensures (exists i | 0 <= i < |backup| :: FirstOfKey(Marks(rows), backup, i, r)) <==>
            FirstOfKey(Marks(rows), backup, 0, r) ||
            exists i | 0 <= i < |backup[1..]| :: FirstOfKey(Marks(rows + one), backup[1..], i, r)
  {
    hide Marks, Clashes, FirstOfKey;
    var rest := backup[1..];
    if i :| 0 <= i < |rest| && FirstOfKey(Marks(rows + one), rest, i, r) {
      FirstOfKeyLater(rows, backup, one, i, r);
    }
    if i :| 0 < i < |backup| && FirstOfKey(Marks(rows), backup, i, r) {
      FirstOfKeyLater(rows, backup, one, i - 1, r);
    }
  }

  lemma FirstOfKeyHere(rows: seq<Row>, backup: seq<Row>, one: seq<Row>, r: Row)
    requires r.msgid.Some? && backup != []
    requires one == if backup[0].msgid.Some? && !Clashes(rows, Imported(backup[0])) then [Imported(backup[0])] else []
    ensures r in one <==> FirstOfKey(Marks(rows), backup, 0, r)
  {
    if backup[0].msgid.Some? {
      MarkIn(rows, backup[0]);
    }
  }

  lemma FirstOfKeyLater(rows: seq<Row>, backup: seq<Row>, one: seq<Row>, i: nat, r: Row)
    requires r.msgid.Some? && i + 1 < |backup|
    requires one == if backup[0].msgid.Some? && !Clashes(rows, Imported(backup[0])) then [Imported(backup[0])] else []
    ensures FirstOfKey(Marks(rows + one), backup[1..], i, r) <==> FirstOfKey(Marks(rows), backup, i + 1, r)
  {
    var rest := backup[1..];
    var b := backup[0];
    assert rest[i] == backup[i + 1] && forall j | 0 <= j < i :: rest[j] == backup[j + 1];
    MarksAppend(rows, one);
    OneRow(b);
    if b.msgid.Some? {
      MarkIn(rows, b);
    }
    hide Marks, Clashes;
    if FirstOfKey(Marks(rows), backup, i + 1, r) {
      assert b.msgid == r.msgid ==> ChannelOf(b) != r.channel;
    }
    if FirstOfKey(Marks(rows + one), rest, i, r) {
      forall j | 0 <= j < i + 1 && backup[j].msgid == r.msgid
        ensures ChannelOf(backup[j]) != r.channel
      {
        assert j > 0 ==> backup[j] == rest[j - 1];
      }
    }
  }

  lemma {:induction false} NewEventTimes(rows: seq<Row>, backup: seq<Row>, r: Row)
    requires r.msgid.None?
    ensures multiset(NewEvents(rows, backup))[r] == if (r.channel, r.ts, r.text) in Events(rows) then 0 else Times(backup, r)
  {
    hide Events, HasEvent;
    if backup != [] {
      NewEventTimes(rows, backup[1..], r);
      EventIn(rows, backup[0]);
    }
  }

  lemma {:induction false} InsertMarkedMarked(rows: seq<Row>, backup: seq<Row>)
    ensures rows <= InsertMarked(rows, backup)
    ensures forall r <- InsertMarked(rows, backup)[|rows|..] :: r.msgid.Some?
    decreases |backup|
  {
    hide Clashes;
    if backup != [] {
      var b := backup[0];
      InsertMarkedMarked(if b.msgid.Some? && !Clashes(rows, Imported(b)) then rows + [Imported(b)] else rows, backup[1..]);
    }
  }

  /** The rows a merge adds.  A row with a msgid is added exactly when it says
      what a backup row says whose key is new and which is the first of the
      backup with that key.  A row without one is added as often as backup rows
      say it, unless an event of its channel, second and text is there. */
  lemma AddedRowsAre(db: Db, backup: seq<Row>, r: Row)
    ensures db.rows <= Merge(db, backup).rows
    ensures var added := Merge(db, backup).rows[|db.rows|..];
      if r.msgid.Some? then
        r in added <==> exists i | 0 <= i < |backup| :: FirstOfKey(Marks(db.rows), backup, i, r)
      else multiset(added)[r] == if (r.channel, r.ts, r.text) in Events(db.rows) then 0 else Times(backup, r)
  {
    hide Marks, Events, InsertMarked, NewEvents, FirstOfKey;
    var rows := InsertMarked(db.rows, backup);
    InsertMarkedMarked(db.rows, backup);
    NewEventsUnmarked(rows, backup);
    InsertMarkedKeys(db.rows, backup);
    var added := Merge(db, backup).rows[|db.rows|..];
    var marked, events := rows[|db.rows|..], NewEvents(rows, backup);
    assert added == marked + events;
    if r.msgid.Some? {
      InsertMarkedAdds(db.rows, backup, r);
      assert r !in events;
    } else {
      NewEventTimes(rows, backup, r);
      assert r !in marked;
    }
  }

  /** So every added row is a backup row but for its names. */
  lemma AddedRowsComeFrom(db: Db, backup: seq<Row>, r: Row)
    requires db.rows <= Merge(db, backup).rows && r in Merge(db, backup).rows[|db.rows|..]
    ensures exists x <- backup :: r == x.(channel := r.channel, owner := Some(r.channel)) &&
                                  r.channel == if x.owner.Some? then x.owner.value else x.channel
  {
    hide Merge;
    AddedRowsAre(db, backup, r);
    if r.msgid.Some? {
      var i :| 0 <= i < |backup| && FirstOfKey(Marks(db.rows), backup, i, r);
      assert backup[i] in backup;
    } else {
      assert r in multiset(Merge(db, backup).rows[|db.rows|..]);
      TimesSaid(backup, r);
    }
  }

  lemma {:induction false} TimesSaid(backup: seq<Row>, r: Row)
    requires Times(backup, r) > 0
    ensures exists x <- backup :: SaysWhat(x, r)
  {
    if !SaysWhat(backup[0], r) {
      TimesSaid(backup[1..], r);
    }
  }

  /** The channels afterwards are the live ones and those the backup names. */
  lemma ChannelsAre(db: Db, backup: seq<Row>, name: string)
    ensures name in Merge(db, backup).channels <==>
            name in db.channels || exists x <- backup :: name == if x.owner.Some? then x.owner.value else x.channel
  {
    hide InsertMarked, NewEvents;
    assert name in ChannelNames(backup) <==> exists x <- backup :: name == ChannelOf(x);
  }

  // ----- merging again -----

  lemma {:induction false} InsertMarkedSame(rows: seq<Row>, backup: seq<Row>)
    requires BackupMarks(backup) <= Marks(rows)
    ensures InsertMarked(rows, backup) == rows
    decreases |backup|
  {
    hide Marks, Clashes;
    if backup != [] {
      BackupStep(backup);
      if backup[0].msgid.Some? {
        MarkIn(rows, backup[0]);
      }
      InsertMarkedSame(rows, backup[1..]);
    }
  }

  lemma {:induction false} NewEventsNone(rows: seq<Row>, backup: seq<Row>)
    requires BackupEvents(backup) <= Events(rows)
    ensures NewEvents(rows, backup) == []
  {
    hide Events, HasEvent;
    if backup != [] {
      BackupStep(backup);
      EventIn(rows, backup[0]);
      NewEventsNone(rows, backup[1..]);
    }
  }

  /** A merge adds no rows exactly when every key of the backup is there. */
  lemma MergeAddsNothingIff(db: Db, backup: seq<Row>)
    ensures Merge(db, backup).rows == db.rows <==>
            BackupMarks(backup) <= Marks(db.rows) && BackupEvents(backup) <= Events(db.rows)
  {
    hide Marks, Events, BackupMarks, BackupEvents, InsertMarked, NewEvents;
    MergeKeys(db, backup);
    if BackupMarks(backup) <= Marks(db.rows) && BackupEvents(backup) <= Events(db.rows) {
      InsertMarkedSame(db.rows, backup);
      NewEventsNone(db.rows, backup);
    }
  }

  /** Merging a backup again, at any later time, adds no message rows. */
  lemma MergeAgainAddsNothing(db: Db, backup: seq<Row>, later: seq<seq<Row>>)
    ensures var db' := MergeAll(Merge(db, backup), later); Merge(db', backup).rows == db'.rows
  {
    hide Marks, Events, BackupMarks, BackupEvents, Merge, MergeAll, AllMarks, AllEvents;
    MergeKeys(db, backup);
    MergeAllKeys(Merge(db, backup), later);
    MergeAddsNothingIff(MergeAll(Merge(db, backup), later), backup);
  }

  // ----- the unique index holds -----

  predicate Unique(rows: seq<Row>) {
    forall i, j | 0 <= i < j < |rows| && rows[i].msgid.Some? && rows[j].msgid.Some? &&
                  rows[i].owner.Some? && rows[j].owner.Some? ::
      (rows[i].owner, rows[i].msgid) != (rows[j].owner, rows[j].msgid)
  }

  lemma {:induction false} InsertMarkedUnique(rows: seq<Row>, backup: seq<Row>)
    requires Unique(rows)
    ensures Unique(InsertMarked(rows, backup))
    decreases |backup|
  {
    if backup != [] {
      var b := backup[0];
      var rows1 := if b.msgid.Some? && !Clashes(rows, Imported(b)) then rows + [Imported(b)] else rows;
      assert Unique(rows1) by {
        assert forall i | 0 <= i < |rows| :: rows[i] in rows;
      }
      InsertMarkedUnique(rows1, backup[1..]);
    }
  }

  lemma {:induction false} NewEventsUnmarked(rows: seq<Row>, backup: seq<Row>)
    ensures forall r <- NewEvents(rows, backup) :: r.msgid.None?
  {
    if backup != [] {
      NewEventsUnmarked(rows, backup[1..]);
    }
  }

  /** The second insert cannot violate the index, and the merge keeps it. */
  lemma MergeKeepsUnique(db: Db, backup: seq<Row>)
    requires Unique(db.rows)
    ensures Unique(Merge(db, backup).rows)
  {
    hide InsertMarked, NewEvents;
    var rows := InsertMarked(db.rows, backup);
    InsertMarkedUnique(db.rows, backup);
    NewEventsUnmarked(rows, backup);
    var events := NewEvents(rows, backup);
    var all := rows + events;
    forall i | |rows| <= i < |all| ensures all[i].msgid.None? {
      assert all[i] in events;
    }
  }

  lemma EventsStep(rows: seq<Row>, selected: seq<Row>, rest: seq<Row>)
    requires rest != []
    ensures selected + NewEvents(rows, rest) ==
            (if rest[0].msgid.None? && !HasEvent(rows, rest[0]) then selected + [Imported(rest[0])] else selected) +
            NewEvents(rows, rest[1..])
  {
    hide HasEvent;
    assert [] + NewEvents(rows, rest[1..]) == NewEvents(rows, rest[1..]);
  }

  lemma EventsEnd(rows: seq<Row>, selected: seq<Row>, rest: seq<Row>)
    requires rest == []
    ensures selected + NewEvents(rows, rest) == selected
  {
  }

  // ----- the program's own form -----

  class LiveDatabase {
    var channels: set<string>
    var rows: seq<Row>

    ghost function View(): Db
      reads this
    {
      Db(channels, rows)
    }

    /** merge_backup, statement by statement; returns the number of new rows. */
    method MergeBackup(backup: seq<Row>) returns (messages: nat)
      modifies this
      ensures View() == Merge(old(View()), backup)
      ensures messages == |rows| - |old(rows)|
    {
      hide Clashes, HasEvent;
      InsertChannels(backup);
      var before := |rows|;
      var i := 0;
      while i < |backup|
        invariant 0 <= i <= |backup|
        invariant channels == old(channels) + ChannelNames(backup)
        invariant InsertMarked(rows, backup[i..]) == InsertMarked(old(rows), backup)
      {
        assert backup[i..][0] == backup[i] && backup[i..][1..] == backup[i + 1..];
        if backup[i].msgid.Some? {
          if !Clashes(rows, Imported(backup[i])) {
            rows := rows + [Imported(backup[i])];
          }
        }
        i := i + 1;
      }
      InsertEvents(backup);
      InsertMarkedKeeps(old(rows), backup);
      messages := |rows| - before;
    }

    method InsertChannels(backup: seq<Row>)
      modifies `channels
      ensures channels == old(channels) + ChannelNames(backup)
    {
      var i := 0;
      while i < |backup|
        invariant 0 <= i <= |backup|
        invariant channels == old(channels) + ChannelNames(backup[..i])
      {
        channels := channels + {ChannelOf(backup[i])};
        assert backup[..i + 1] == backup[..i] + [backup[i]];
        i := i + 1;
      }
      assert backup[..i] == backup;
    }

    /** The second insert: its select is finished before the first row goes in. */
    method InsertEvents(backup: seq<Row>)
      modifies `rows
      ensures rows == old(rows) + NewEvents(old(rows), backup)
    {
      hide HasEvent, NewEvents;
      var selected: seq<Row> := [];
      var i := 0;
      while i < |backup|
        invariant 0 <= i <= |backup|
        invariant rows == old(rows)
        invariant NewEvents(rows, backup) == selected + NewEvents(rows, backup[i..])
      {
        EventsStep(rows, selected, backup[i..]);
        assert backup[i..][0] == backup[i] && backup[i..][1..] == backup[i + 1..];
        if backup[i].msgid.None? {
          if !HasEvent(rows, backup[i]) {
            selected := selected + [Imported(backup[i])];
          }
        }
        i := i + 1;
      }
      EventsEnd(rows, selected, backup[i..]);
      rows := rows + selected;
    }
  }
}
