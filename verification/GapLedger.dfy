/**
 The gap ledger: rows recording holes in a channel's stored history.  Bounds
 are exclusive timestamps of the rows flanking the hole.  The table is a
 sequence of rows in scan order with distinct ids; each function is one of the
 statements the program runs on it.
 */
module GapLedger {
  import opened Wrappers

  datatype GapState = Witnessed | Candidate | Dead

  datatype Gap = Gap(id: int, channel: nat, start: int, startMsgid: Option<string>,
                     end: int, endMsgid: Option<string>, state: GapState,
                     attempts: nat, lastAttempt: int)

  function Find(rows: seq<Gap>, id: int): (r: Option<Gap>)
    ensures r.Some? ==> r.value in rows && r.value.id == id
    ensures r.None? <==> forall g <- rows :: g.id != id
  {
    if rows == [] then None else if rows[0].id == id then Some(rows[0]) else Find(rows[1..], id)
  }

  /** Apply `f` to the row with this id, if there is one. */
  function Update(rows: seq<Gap>, id: int, f: Gap -> Gap): seq<Gap> {
    if rows == [] then []
    else [if rows[0].id == id then f(rows[0]) else rows[0]] + Update(rows[1..], id, f)
  }

  function Delete(rows: seq<Gap>, id: int): seq<Gap> {
    if rows == [] then []
    else if rows[0].id == id then Delete(rows[1..], id) else [rows[0]] + Delete(rows[1..], id)
  }

  function Narrowed(g: Gap, start: int, startMsgid: Option<string>, end: int, endMsgid: Option<string>): Gap {
    g.(start := if start > 0 then start else g.start,
       startMsgid := if start > 0 then startMsgid else g.startMsgid,
       end := if end > 0 then end else g.end,
       endMsgid := if end > 0 then endMsgid else g.endMsgid,
       attempts := 0, lastAttempt := 0)
  }

  /** Move bounds inward; a row whose bounds would meet or cross is deleted. */
  function Shrink(rows: seq<Gap>, id: int, start: int, startMsgid: Option<string>,
                  end: int, endMsgid: Option<string>): seq<Gap> {
    var rows' := Update(rows, id, g => Narrowed(g, start, startMsgid, end, endMsgid));
    var g := Find(rows', id);
    if g.Some? && g.value.start >= g.value.end then Delete(rows', id) else rows'
  }

  function SetState(rows: seq<Gap>, id: int, state: GapState): seq<Gap> {
    Update(rows, id, (g: Gap) => g.(state := state))
  }

  function Touch(rows: seq<Gap>, id: int, now: int): seq<Gap> {
    Update(rows, id, (g: Gap) => g.(attempts := g.attempts + 1, lastAttempt := now))
  }

  function DropMsgids(rows: seq<Gap>, id: int): seq<Gap> {
    Update(rows, id, (g: Gap) => g.(startMsgid := None, endMsgid := None, attempts := 0, lastAttempt := 0))
  }

  predicate HasMsgids(rows: seq<Gap>, id: int) {
    var g := Find(rows, id);
    g.Some? && (g.value.startMsgid.Some? || g.value.endMsgid.Some?)
  }

  // ----- recording a hole -----

  /** The select of the fold: live rows of the channel that overlap or touch. */
  predicate Touches(g: Gap, hole: Gap) {
    g.channel == hole.channel && g.state != Dead && g.start <= hole.end && g.end >= hole.start
  }

  function Stronger(a: GapState, b: GapState): GapState {
    if a == Witnessed || b == Witnessed then Witnessed
    else if a == Candidate || b == Candidate then Candidate else Dead
  }

  /** The union of two holes; each bound's msgid comes from the row giving it. */
  function Union(u: Gap, g: Gap): Gap {
    u.(start := if g.start < u.start then g.start else u.start,
       startMsgid := if g.start < u.start then g.startMsgid else u.startMsgid,
       end := if g.end > u.end then g.end else u.end,
       endMsgid := if g.end > u.end then g.endMsgid else u.endMsgid,
       state := Stronger(g.state, u.state))
  }

  /** Fold every row touching `hole` into `u`. */
  function Absorb(rows: seq<Gap>, hole: Gap, u: Gap): Gap {
    if rows == [] then u
    else Absorb(rows[1..], hole, if Touches(rows[0], hole) then Union(u, rows[0]) else u)
  }

  function Untouched(rows: seq<Gap>, hole: Gap): seq<Gap> {
    if rows == [] then []
    else if Touches(rows[0], hole) then Untouched(rows[1..], hole) else [rows[0]] + Untouched(rows[1..], hole)
  }

  /** SQLite's next rowid: one more than the greatest in the table. */
  function NextId(rows: seq<Gap>): (id: int)
    ensures id >= 1
    ensures forall g <- rows :: g.id < id
  {
    if rows == [] then 1
    else if rows[0].id >= NextId(rows[1..]) then rows[0].id + 1 else NextId(rows[1..])
  }

  predicate Recordable(hole: Gap) {
    hole.start > 0 && hole.start < hole.end
  }

  /** The table after recording `hole`, and the new row's id (-1 on refusal). */
  function Record(rows: seq<Gap>, hole: Gap): (seq<Gap>, int) {
    if !Recordable(hole) then (rows, -1)
    else
      var rest := Untouched(rows, hole);
      var u := Absorb(rows, hole, hole).(id := NextId(rest), attempts := 0, lastAttempt := 0);
      (rest + [u], u.id)
  }

  /** The hole a caller asks to record; id and counters are assigned by `Record`. */
  function Hole(channel: nat, start: int, startMsgid: Option<string>, end: int, endMsgid: Option<string>): Gap {
    Gap(0, channel, start, startMsgid, end, endMsgid, Witnessed, 0, 0)
  }

  // ----- invariants of the table -----

  /** Ids are distinct and no row's bounds cross. */
  predicate WellFormed(rows: seq<Gap>) {
    Distinct(rows) && forall g <- rows :: g.start < g.end
  }

  predicate Distinct(rows: seq<Gap>) {
    rows == [] || ((forall g <- rows[1..] :: g.id != rows[0].id) && Distinct(rows[1..]))
  }

  /** Row `a` spans at least the hole of row `b`. */
  predicate Spans(a: Gap, b: Gap) {
    a.channel == b.channel && a.start <= b.start && b.end <= a.end
  }

  predicate CoversTime(rows: seq<Gap>, channel: nat, ts: int) {
    exists g <- rows :: g.channel == channel && g.start < ts < g.end
  }

  lemma {:induction false} DeleteIn(rows: seq<Gap>, id: int, g: Gap)
    ensures g in Delete(rows, id) <==> g in rows && g.id != id
  {
    if rows != [] {
      DeleteIn(rows[1..], id, g);
    }
  }

  lemma {:induction false} UntouchedIn(rows: seq<Gap>, hole: Gap, g: Gap)
    ensures g in Untouched(rows, hole) <==> g in rows && !Touches(g, hole)
  {
    if rows != [] {
      UntouchedIn(rows[1..], hole, g);
    }
  }

  lemma {:induction false} UpdateIn(rows: seq<Gap>, id: int, f: Gap -> Gap, g: Gap)
    ensures g in Update(rows, id, f) <==> (g in rows && g.id != id) || exists x <- rows :: x.id == id && g == f(x)
  {
    if rows != [] {
      UpdateIn(rows[1..], id, f, g);
    }
  }

  lemma {:induction false} FindUnique(rows: seq<Gap>, g: Gap)
    requires Distinct(rows) && g in rows
    ensures Find(rows, g.id) == Some(g)
  {
    if rows[0] != g {
      FindUnique(rows[1..], g);
    }
  }

  lemma {:induction false} DeleteDistinct(rows: seq<Gap>, id: int)
    requires Distinct(rows)
    ensures Distinct(Delete(rows, id))
  {
    if rows != [] {
      DeleteDistinct(rows[1..], id);
      forall g | g in Delete(rows[1..], id) ensures g in rows[1..] {
        DeleteIn(rows[1..], id, g);
      }
      assert rows[0].id != id ==> Delete(rows, id)[1..] == Delete(rows[1..], id);
    }
  }

  lemma {:induction false} UntouchedDistinct(rows: seq<Gap>, hole: Gap)
    requires Distinct(rows)
    ensures Distinct(Untouched(rows, hole))
  {
    if rows != [] {
      UntouchedDistinct(rows[1..], hole);
      forall g | g in Untouched(rows[1..], hole) ensures g in rows[1..] {
        UntouchedIn(rows[1..], hole, g);
      }
      assert !Touches(rows[0], hole) ==> Untouched(rows, hole)[1..] == Untouched(rows[1..], hole);
    }
  }

  lemma {:induction false} UpdateDistinct(rows: seq<Gap>, id: int, f: Gap -> Gap)
    requires Distinct(rows) && forall g: Gap :: f(g).id == g.id
    ensures Distinct(Update(rows, id, f))
  {
    if rows != [] {
      UpdateDistinct(rows[1..], id, f);
      forall g | g in Update(rows[1..], id, f) ensures g.id != rows[0].id {
        UpdateIn(rows[1..], id, f, g);
      }
      assert Update(rows, id, f)[1..] == Update(rows[1..], id, f);
    }
  }

  lemma {:induction false} AppendDistinct(rows: seq<Gap>, u: Gap)
    requires Distinct(rows) && forall g <- rows :: g.id != u.id
    ensures Distinct(rows + [u])
  {
    if rows != [] {
      AppendDistinct(rows[1..], u);
      assert (rows + [u])[1..] == rows[1..] + [u];
    }
  }

  /** The absorbed union spans the hole and every row folded into it, and
      takes both its bounds from them. */
  lemma {:induction false} AbsorbSpans(rows: seq<Gap>, hole: Gap, u: Gap)
    requires u.channel == hole.channel
    ensures Spans(Absorb(rows, hole, u), u)
    ensures forall g <- rows | Touches(g, hole) :: Spans(Absorb(rows, hole, u), g)
    ensures Absorb(rows, hole, u).start == u.start || exists g <- rows :: g.start == Absorb(rows, hole, u).start
    ensures Absorb(rows, hole, u).end == u.end || exists g <- rows :: g.end == Absorb(rows, hole, u).end
  {
    if rows != [] {
      AbsorbSpans(rows[1..], hole, if Touches(rows[0], hole) then Union(u, rows[0]) else u);
    }
  }

  lemma RecordWellFormed(rows: seq<Gap>, hole: Gap)
    requires WellFormed(rows)
    ensures WellFormed(Record(rows, hole).0)
  {
    if Recordable(hole) {
      var rest := Untouched(rows, hole);
      UntouchedDistinct(rows, hole);
      AbsorbSpans(rows, hole, hole);
      var u := Absorb(rows, hole, hole).(id := NextId(rest), attempts := 0, lastAttempt := 0);
      AppendDistinct(rest, u);
      forall g | g in rest ensures g in rows {
        UntouchedIn(rows, hole, g);
      }
    }
  }

  /** Recording never uncovers anything: every row is still there or is
      spanned by the new one, which also spans the recorded hole. */
  lemma RecordKeepsCover(rows: seq<Gap>, hole: Gap)
    requires Recordable(hole)
    ensures forall g <- rows :: exists g' <- Record(rows, hole).0 :: Spans(g', g) && (g.state == Dead ==> g' == g)
    ensures exists g' <- Record(rows, hole).0 :: g'.id == Record(rows, hole).1 && Spans(g', hole)
  {
    AbsorbSpans(rows, hole, hole);
    var (rows', id) := Record(rows, hole);
    var u := rows'[|rows'| - 1];
    forall g <- rows ensures exists g' <- rows' :: Spans(g', g) && (g.state == Dead ==> g' == g) {
      UntouchedIn(rows, hole, g);
      if Touches(g, hole) {
        assert u in rows' && Spans(u, g);
      } else {
        assert g in rows' && Spans(g, g);
      }
    }
    assert u in rows' && Spans(u, hole);
  }

  /** The union reaches no further than the hole and the rows folded into it. */
  lemma {:induction false} AbsorbWithin(rows: seq<Gap>, hole: Gap, u: Gap, start: int, end: int)
    requires start <= u.start && u.end <= end
    requires forall g <- rows | Touches(g, hole) :: start <= g.start && g.end <= end
    ensures start <= Absorb(rows, hole, u).start && Absorb(rows, hole, u).end <= end
  {
    if rows != [] {
      AbsorbWithin(rows[1..], hole, if Touches(rows[0], hole) then Union(u, rows[0]) else u, start, end);
    }
  }

  /** The recorded row, under the id that is returned. */
  lemma RecordFinds(rows: seq<Gap>, hole: Gap)
    requires Recordable(hole)
    ensures var (rows', id) := Record(rows, hole);
      id > 0 && Find(rows', id) == Some(Absorb(rows, hole, hole).(id := id, attempts := 0, lastAttempt := 0))
  {
    var rest := Untouched(rows, hole);
    var u := Absorb(rows, hole, hole).(id := NextId(rest), attempts := 0, lastAttempt := 0);
    FindLast(rest, u);
  }

  lemma {:induction false} FindLast(rows: seq<Gap>, u: Gap)
    requires forall g <- rows :: g.id != u.id
    ensures Find(rows + [u], u.id) == Some(u)
  {
    if rows == [] {
      assert rows + [u] == [u];
    } else {
      assert (rows + [u])[1..] == rows[1..] + [u];
      FindLast(rows[1..], u);
    }
  }

  lemma {:induction false} NextIdIs(rows: seq<Gap>, id: int)
    ensures NextId(rows) == id <==>
            (forall g <- rows :: g.id < id) && if id == 1 then true else id > 1 && exists g <- rows :: g.id == id - 1
  {
    if rows != [] {
      NextIdIs(rows[1..], id);
      NextIdIs(rows[1..], NextId(rows[1..]));
      assert rows == [rows[0]] + rows[1..];
    }
  }

  /** Rows folded into the newest hole free their ids, as rows deleted before do.
      The union is given an id that some other row had exactly when every row
      left alone has a smaller one, and one of them the next smaller (or it is
      the first id of all): whether the id was freed by folding or by deletion
      makes no difference. */
  lemma RecordReusesIdIff(rows: seq<Gap>, hole: Gap, id: int)
    requires Recordable(hole) && id >= 1
    ensures Record(rows, hole).1 == id <==>
            (forall r <- rows | !Touches(r, hole) :: r.id < id) &&
            (id == 1 || exists r <- rows :: !Touches(r, hole) && r.id == id - 1)
  {
    var rest := Untouched(rows, hole);
    NextIdIs(rest, id);
    forall r: Gap ensures r in rest <==> r in rows && !Touches(r, hole) {
      UntouchedIn(rows, hole, r);
    }
  }

  // ----- what a statement does to the row it is about -----

  lemma {:induction false} UpdateFinds(rows: seq<Gap>, id: int, f: Gap -> Gap)
    requires forall g: Gap :: f(g).id == g.id
    ensures Find(Update(rows, id, f), id) == if Find(rows, id).Some? then Some(f(Find(rows, id).value)) else None
    ensures forall g: Gap :: g.id != id ==> (g in Update(rows, id, f) <==> g in rows)
  {
    if rows != [] {
      UpdateFinds(rows[1..], id, f);
    }
  }

  lemma DeleteFinds(rows: seq<Gap>, id: int)
    ensures Find(Delete(rows, id), id) == None
    ensures forall g: Gap :: g.id != id ==> (g in Delete(rows, id) <==> g in rows)
  {
    forall g: Gap ensures g in Delete(rows, id) <==> g in rows && g.id != id {
      DeleteIn(rows, id, g);
    }
  }

  /** A shrink takes the given bounds with their msgids, keeps the others, lets
      the row be asked for again at once, and drops it when its bounds would
      meet or cross; no other row is touched. */
  lemma ShrinkIs(rows: seq<Gap>, start: int, sm: Option<string>, end: int, em: Option<string>, g: Gap)
    requires Find(rows, g.id) == Some(g)
    ensures var rows' := Shrink(rows, g.id, start, sm, end, em);
      var (lo, loId) := if start > 0 then (start, sm) else (g.start, g.startMsgid);
      var (hi, hiId) := if end > 0 then (end, em) else (g.end, g.endMsgid);
      Find(rows', g.id) == (if lo < hi then Some(Gap(g.id, g.channel, lo, loId, hi, hiId, g.state, 0, 0)) else None) &&
      forall r: Gap :: r.id != g.id ==> (r in rows' <==> r in rows)
  {
    var f := (g: Gap) => Narrowed(g, start, sm, end, em);
    UpdateFinds(rows, g.id, f);
    DeleteFinds(Update(rows, g.id, f), g.id);
    hide Update, Delete, Find;
  }

  /** Row `g` is a live row of the hole's channel and overlaps or touches it. */
  predicate Meets(g: Gap, hole: Gap) {
    g.channel == hole.channel && g.state != Dead && g.start <= hole.end && hole.start <= g.end
  }

  /** The low bound of a union is the lowest there is, with the msgid of the hole
      itself or else of the first row that has it. */
  lemma {:induction false} AbsorbStart(rows: seq<Gap>, hole: Gap, u: Gap)
    ensures var a := Absorb(rows, hole, u);
      a.channel == u.channel && a.start <= u.start && (a.start == u.start ==> a.startMsgid == u.startMsgid) &&
      (forall g <- rows | Meets(g, hole) :: a.start <= g.start) &&
      (a.start < u.start ==> exists i :: FirstLow(rows, hole, a, i))
  {
    if rows != [] {
      var u1 := if Meets(rows[0], hole) then Union(u, rows[0]) else u;
      var a := Absorb(rows[1..], hole, u1);
      AbsorbStart(rows[1..], hole, u1);
      hide Union;
      if a.start < u1.start {
        var i :| FirstLow(rows[1..], hole, a, i);
        LaterLow(rows, hole, a, i, u1);
      } else if a.start < u.start {
        assert FirstLow(rows, hole, a, 0);
      }
    }
  }

  /** Row `i` touches the hole and is the first such with the low bound of `a`. */
  predicate FirstLow(rows: seq<Gap>, hole: Gap, a: Gap, i: int) {
    0 <= i < |rows| && Meets(rows[i], hole) && rows[i].start == a.start && rows[i].startMsgid == a.startMsgid &&
    forall j | 0 <= j < i && Meets(rows[j], hole) :: rows[j].start > a.start
  }

  lemma LaterLow(rows: seq<Gap>, hole: Gap, a: Gap, i: int, u1: Gap)
    requires rows != [] && FirstLow(rows[1..], hole, a, i) && a.start < u1.start
    requires Meets(rows[0], hole) ==> u1.start <= rows[0].start
    ensures FirstLow(rows, hole, a, i + 1)
  {
    hide Meets;
    assert rows[1..][i] == rows[i + 1];
    forall j | 0 <= j < i + 1 && Meets(rows[j], hole) ensures rows[j].start > a.start {
      if j > 0 {
        assert rows[1..][j - 1] == rows[j];
      }
    }
  }

  /** The high bound is the highest there is, with the msgid of the hole
      itself or else of the first row that has it. */
  lemma {:induction false} AbsorbEnd(rows: seq<Gap>, hole: Gap, u: Gap)
    ensures var a := Absorb(rows, hole, u);
      a.channel == u.channel && a.end >= u.end && (a.end == u.end ==> a.endMsgid == u.endMsgid) &&
      (forall g <- rows | Meets(g, hole) :: a.end >= g.end) &&
      (a.end > u.end ==> exists i :: FirstHigh(rows, hole, a, i))
  {
    if rows != [] {
      var u1 := if Meets(rows[0], hole) then Union(u, rows[0]) else u;
      var a := Absorb(rows[1..], hole, u1);
      AbsorbEnd(rows[1..], hole, u1);
      hide Union;
      if a.end > u1.end {
        var i :| FirstHigh(rows[1..], hole, a, i);
        LaterHigh(rows, hole, a, i, u1);
      } else if a.end > u.end {
        assert FirstHigh(rows, hole, a, 0);
      }
    }
  }

  /** Row `i` touches the hole and is the first such with the high bound of `a`. */
  predicate FirstHigh(rows: seq<Gap>, hole: Gap, a: Gap, i: int) {
    0 <= i < |rows| && Meets(rows[i], hole) && rows[i].end == a.end && rows[i].endMsgid == a.endMsgid &&
    forall j | 0 <= j < i && Meets(rows[j], hole) :: rows[j].end < a.end
  }

  lemma LaterHigh(rows: seq<Gap>, hole: Gap, a: Gap, i: int, u1: Gap)
    requires rows != [] && FirstHigh(rows[1..], hole, a, i) && a.end > u1.end
    requires Meets(rows[0], hole) ==> u1.end >= rows[0].end
    ensures FirstHigh(rows, hole, a, i + 1)
  {
    hide Meets;
    assert rows[1..][i] == rows[i + 1];
    forall j | 0 <= j < i + 1 && Meets(rows[j], hole) ensures rows[j].end < a.end {
      if j > 0 {
        assert rows[1..][j - 1] == rows[j];
      }
    }
  }

  lemma {:induction false} AbsorbState(rows: seq<Gap>, hole: Gap, u: Gap)
    ensures var a := Absorb(rows, hole, u);
      (a.state == Witnessed <==> u.state == Witnessed || exists g <- rows :: Meets(g, hole) && g.state == Witnessed) &&
      (a.state == Dead <==> u.state == Dead && forall g <- rows :: !Meets(g, hole))
  {
    if rows != [] {
      AbsorbState(rows[1..], hole, if Touches(rows[0], hole) then Union(u, rows[0]) else u);
      assert forall g :: g in rows <==> g == rows[0] || g in rows[1..];
      assert (forall g <- rows :: !Meets(g, hole)) <==> !Meets(rows[0], hole) && forall g <- rows[1..] :: !Meets(g, hole);
    }
  }

  /** What recording a hole does.  The live rows it meets are gone and all others
      are left; the last row stands for the hole and those it met.  Each of its
      bounds is the outermost of theirs and has its msgid from the hole or else
      from the first row that reaches so far; it is witnessed if one of them
      was, and nobody has asked for it yet. */
  lemma RecordIs(rows: seq<Gap>, hole: Gap)
    ensures !(0 < hole.start < hole.end) ==> Record(rows, hole) == (rows, -1)
    ensures 0 < hole.start < hole.end ==> var (rows', id) := Record(rows, hole);
      rows' != [] && id > 0 && var u := rows'[|rows'| - 1];
      u.id == id && u.channel == hole.channel && u.attempts == 0 && u.lastAttempt == 0 &&
      (forall g: Gap :: g in rows'[..|rows'| - 1] <==> g in rows && !Meets(g, hole))
    ensures 0 < hole.start < hole.end ==> Joined(rows, hole, Record(rows, hole).0[|Record(rows, hole).0| - 1])
  {
    if Recordable(hole) {
      AbsorbStart(rows, hole, hole);
      AbsorbEnd(rows, hole, hole);
      AbsorbState(rows, hole, hole);
      var rest := Untouched(rows, hole);
      forall g: Gap ensures g in rest <==> g in rows && !Meets(g, hole) {
        UntouchedIn(rows, hole, g);
      }
      hide Absorb, Untouched, Meets, Touches;
      var a := Absorb(rows, hole, hole);
      var u := a.(id := NextId(rest), attempts := 0, lastAttempt := 0);
      if i :| FirstLow(rows, hole, a, i) {
        assert FirstLow(rows, hole, u, i);
      }
      if i :| FirstHigh(rows, hole, a, i) {
        assert FirstHigh(rows, hole, u, i);
      }
    }
  }

  /** Row `u` joins the hole and the rows it meets. */
  ghost predicate Joined(rows: seq<Gap>, hole: Gap, u: Gap) {
    u.start <= hole.start && (forall g <- rows | Meets(g, hole) :: u.start <= g.start) &&
    (u.start == hole.start ==> u.startMsgid == hole.startMsgid) &&
    (u.start < hole.start ==> exists i :: FirstLow(rows, hole, u, i)) &&
    u.end >= hole.end && (forall g <- rows | Meets(g, hole) :: u.end >= g.end) &&
    (u.end == hole.end ==> u.endMsgid == hole.endMsgid) &&
    (u.end > hole.end ==> exists i :: FirstHigh(rows, hole, u, i)) &&
    (u.state == Witnessed <==> hole.state == Witnessed || exists g <- rows :: Meets(g, hole) && g.state == Witnessed) &&
    (u.state == Dead <==> hole.state == Dead && forall g <- rows :: !Meets(g, hole))
  }

  lemma ShrinkWellFormed(rows: seq<Gap>, id: int, start: int, sm: Option<string>, end: int, em: Option<string>)
    requires WellFormed(rows)
    ensures WellFormed(Shrink(rows, id, start, sm, end, em))
  {
    var f := (g: Gap) => Narrowed(g, start, sm, end, em);
    var rows' := Update(rows, id, f);
    UpdateDistinct(rows, id, f);
    DeleteDistinct(rows', id);
    forall g | g in rows' ensures g.start < g.end || (g.id == id && Find(rows', id) == Some(g)) {
      UpdateIn(rows, id, f, g);
      FindUnique(rows', g);
    }
    forall g | g in Delete(rows', id) ensures g in rows' && g.id != id {
      DeleteIn(rows', id, g);
    }
  }

  // ----- what a received batch does to a row -----

  /** What the ledger uses of a batch: how many real entries, and its edges. */
  datatype Page = Page(raw: nat, oldest: int, newest: int, oldestMsgid: Option<string>, newestMsgid: Option<string>)

  /** True when a gap-fill reply closes the row: it reached the far bound, or
      the server had no more in range than it sent. */
  predicate Bridges(g: Gap, dir: int, page: Page, limit: int) {
    (if dir < 0 then page.oldest > 0 && page.oldest <= g.start
     else page.newest > 0 && page.newest >= g.end) ||
    page.raw < limit
  }

  /** A non-empty reply to a gap fill: the bound on the side approached moves
      to the edge of the batch, or the row is closed. */
  function FillReply(rows: seq<Gap>, id: int, dir: int, page: Page, limit: int): seq<Gap> {
    var g := Find(rows, id);
    if g.None? then rows
    else if Bridges(g.value, dir, page, limit) then Delete(rows, id)
    else if dir < 0 then Shrink(rows, id, 0, None, page.oldest, page.oldestMsgid)
    else Shrink(rows, id, page.newest, page.newestMsgid, 0, None)
  }

  /** A BEFORE page of the catch-up loop narrows the witnessed row from its end. */
  function PageReply(rows: seq<Gap>, id: int, page: Page): seq<Gap> {
    if id > 0 && page.raw > 0 && page.oldest > 0
    then Shrink(rows, id, 0, None, page.oldest, page.oldestMsgid) else rows
  }

  lemma InPlaceWellFormed(rows: seq<Gap>, id: int, f: Gap -> Gap)
    requires WellFormed(rows) && forall g: Gap :: f(g).id == g.id && f(g).start == g.start && f(g).end == g.end
    ensures WellFormed(Update(rows, id, f))
  {
    UpdateDistinct(rows, id, f);
    forall g | g in Update(rows, id, f) ensures g.start < g.end {
      UpdateIn(rows, id, f, g);
    }
  }

  lemma DeleteWellFormed(rows: seq<Gap>, id: int)
    requires WellFormed(rows)
    ensures WellFormed(Delete(rows, id))
  {
    DeleteDistinct(rows, id);
    forall g | g in Delete(rows, id) ensures g in rows {
      DeleteIn(rows, id, g);
    }
  }

  lemma FillWellFormed(rows: seq<Gap>, id: int, dir: int, page: Page, limit: int)
    requires WellFormed(rows)
    ensures WellFormed(FillReply(rows, id, dir, page, limit))
  {
    hide Shrink, Delete;
    DeleteWellFormed(rows, id);
    ShrinkWellFormed(rows, id, 0, None, page.oldest, page.oldestMsgid);
    ShrinkWellFormed(rows, id, page.newest, page.newestMsgid, 0, None);
  }

  lemma PageWellFormed(rows: seq<Gap>, id: int, page: Page)
    requires WellFormed(rows)
    ensures WellFormed(PageReply(rows, id, page))
  {
    ShrinkWellFormed(rows, id, 0, None, page.oldest, page.oldestMsgid);
  }
}
