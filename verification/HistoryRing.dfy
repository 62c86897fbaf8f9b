/**
 The input-line history: a fixed ring of 100 slots with a write position and a
 browsing position, against the plain thing it stands for, a list of lines,
 newest first, with a cursor.
 */
module HistoryRing {
  import opened Wrappers

  const SIZE: nat := 100

  /** `realpos` is where the next line goes, `pos` what is being looked at. */
  datatype Ring = Ring(lines: seq<Option<string>>, pos: nat, realpos: nat)

  predicate Valid(r: Ring) {
    |r.lines| == SIZE && r.pos < SIZE && r.realpos < SIZE
  }

  function Next(i: nat): nat {
    if i == SIZE - 1 then 0 else i + 1
  }

  function Previous(i: nat): nat {
    if i == 0 then SIZE - 1 else i - 1
  }

  function RingAdd(r: Ring, text: string): Ring
    requires Valid(r)
  {
    Ring(r.lines[r.realpos := Some(text)], Next(r.realpos), Next(r.realpos))
  }

  function RingDown(r: Ring): (Ring, Option<string>)
    requires Valid(r)
  {
    if r.pos == r.realpos then (r, None)
    else if Next(r.pos) == r.realpos then (r.(pos := Next(r.pos)), Some(""))
    else if r.lines[Next(r.pos)].Some? then (r.(pos := Next(r.pos)), r.lines[Next(r.pos)])
    else (r, None)
  }

  /** What was typed is put into the history before the step up. */
  predicate RingStashes(r: Ring, text: string)
    requires Valid(r)
  {
    text != "" && r.lines[Previous(r.pos)] != Some(text) && r.lines[r.pos] != Some(text)
  }

  function RingUp(r: Ring, text: string): (Ring, Option<string>)
    requires Valid(r)
  {
    if r.pos == Next(r.realpos) then (r, None)
    else if r.lines[Previous(r.pos)].None? then (r, None)
    else
      var r1 := if RingStashes(r, text) then RingAdd(r, text) else r;
      (r1.(pos := Previous(r.pos)), r1.lines[Previous(r.pos)])
  }

  // ----- the list it stands for -----

  /** Lines entered, newest first; the cursor counts up from the empty line. */
  datatype Listing = Listing(lines: seq<string>, cursor: nat)

  const LIMIT: nat := 99

  function ListAdd(l: Listing, text: string): Listing {
    Listing([text] + l.lines, 0)
  }

  function ListDown(l: Listing): (Listing, Option<string>)
    requires l.cursor <= |l.lines|
  {
    if l.cursor == 0 then (l, None)
    else if l.cursor == 1 then (l.(cursor := 0), Some(""))
    else (l.(cursor := l.cursor - 1), Some(l.lines[l.cursor - 2]))
  }

  /** The line the cursor is on; on the empty line of a full ring, the slot
      that is overwritten next still shows through. */
  function LineAt(l: Listing): Option<string>
    requires l.cursor <= |l.lines|
  {
    if l.cursor > 0 then Some(l.lines[l.cursor - 1])
    else if |l.lines| >= SIZE then Some(l.lines[SIZE - 1]) else None
  }

  /** There is a line above, within the limit. */
  predicate HasAbove(l: Listing) {
    l.cursor < LIMIT && l.cursor < |l.lines|
  }

  predicate Stashes(l: Listing, text: string)
    requires l.cursor <= |l.lines|
  {
    HasAbove(l) && text != "" && text != l.lines[l.cursor] && LineAt(l) != Some(text)
  }

  function ListUp(l: Listing, text: string): (Listing, Option<string>)
    requires l.cursor <= |l.lines|
  {
    if !HasAbove(l) then (l, None)
    else if Stashes(l, text) then (Listing([text] + l.lines, l.cursor + 2), Some(l.lines[l.cursor]))
    else (l.(cursor := l.cursor + 1), Some(l.lines[l.cursor]))
  }

  // ----- refinement -----

  /** The slot `k` steps behind the write position. */
  function Slot(realpos: nat, k: nat): nat
    requires realpos < SIZE && k <= SIZE
  {
    if k <= realpos then realpos - k else realpos + SIZE - k
  }

  predicate Represents(r: Ring, l: Listing) {
    Valid(r) && l.cursor <= LIMIT && l.cursor <= |l.lines| && r.pos == Slot(r.realpos, l.cursor) &&
    forall k | 1 <= k <= SIZE ::
      r.lines[Slot(r.realpos, k)] == if k <= |l.lines| then Some(l.lines[k - 1]) else None
  }

  lemma SlotAt(r: Ring, l: Listing, k: nat)
    requires Represents(r, l) && 1 <= k <= SIZE
    ensures r.lines[Slot(r.realpos, k)] == if k <= |l.lines| then Some(l.lines[k - 1]) else None
  {
  }

  /** The slots after a line was added: each line is one step further behind. */
  lemma AddedSlots(r: Ring, l: Listing, text: string, k: nat)
    requires Represents(r, l) && 1 <= k <= SIZE
    ensures RingAdd(r, text).lines[Slot(Next(r.realpos), k)] ==
            if k <= |l.lines| + 1 then Some(([text] + l.lines)[k - 1]) else None
  {
    if k > 1 {
      assert Slot(Next(r.realpos), k) == Slot(r.realpos, k - 1);
      SlotAt(r, l, k - 1);
    }
  }

  lemma AddRefines(r: Ring, l: Listing, text: string)
    requires Represents(r, l)
    ensures Represents(RingAdd(r, text), ListAdd(l, text))
  {
    forall k | 1 <= k <= SIZE
      ensures RingAdd(r, text).lines[Slot(Next(r.realpos), k)] ==
              if k <= |l.lines| + 1 then Some(([text] + l.lines)[k - 1]) else None
    {
      AddedSlots(r, l, text, k);
    }
  }

  lemma DownRefines(r: Ring, l: Listing)
    requires Represents(r, l)
    ensures RingDown(r).1 == ListDown(l).1 && Represents(RingDown(r).0, ListDown(l).0)
  {
    if l.cursor >= 2 {
      SlotAt(r, l, l.cursor - 1);
      assert Next(r.pos) == Slot(r.realpos, l.cursor - 1);
    }
  }

  /** What the slots at and above the browsing position hold. */
  lemma LooksAt(r: Ring, l: Listing)
    requires Represents(r, l)
    ensures r.lines[r.pos] == LineAt(l)
    ensures l.cursor < SIZE - 1 ==> Previous(r.pos) == Slot(r.realpos, l.cursor + 1)
    ensures l.cursor < SIZE - 1 ==>
            r.lines[Previous(r.pos)] == if l.cursor < |l.lines| then Some(l.lines[l.cursor]) else None
    ensures r.pos == Next(r.realpos) <==> l.cursor == LIMIT
  {
    SlotAt(r, l, if l.cursor == 0 then SIZE else l.cursor);
    SlotAt(r, l, l.cursor + 1);
  }

  /** Both step up or neither does, and both stash or neither does. */
  lemma UpAgrees(r: Ring, l: Listing, text: string)
    requires Represents(r, l)
    ensures (r.pos != Next(r.realpos) && r.lines[Previous(r.pos)].Some?) <==> HasAbove(l)
    ensures HasAbove(l) ==> (RingStashes(r, text) <==> Stashes(l, text))
  {
    LooksAt(r, l);
  }

  /** Typed text goes into a slot other than the one about to be shown. */
  lemma StashSparesShownLine(r: Ring, l: Listing, text: string)
    requires Represents(r, l) && Stashes(l, text)
    ensures Previous(r.pos) != r.realpos
    ensures RingUp(r, text).1 == Some(l.lines[l.cursor])
  {
    LooksAt(r, l);
    UpAgrees(r, l, text);
  }

  /** Both forms show the same line on the way up, always. */
  lemma UpShowsSame(r: Ring, l: Listing, text: string)
    requires Represents(r, l)
    ensures RingUp(r, text).1 == ListUp(l, text).1
  {
    UpAgrees(r, l, text);
    LooksAt(r, l);
    if Stashes(l, text) {
      StashSparesShownLine(r, l, text);
    }
  }

  /** The ring still stands for the list afterwards, except when text was
      stashed from the line before the limit: the cursor then is a full turn
      behind the write position, which the ring cannot tell from the empty line. */
  lemma UpRefinesIff(r: Ring, l: Listing, text: string)
    requires Represents(r, l)
    ensures Represents(RingUp(r, text).0, ListUp(l, text).0) <==> !(Stashes(l, text) && l.cursor == LIMIT - 1)
  {
    UpAgrees(r, l, text);
    LooksAt(r, l);
    if Stashes(l, text) {
      StashedUp(r, l, text);
    }
  }

  lemma StashedUp(r: Ring, l: Listing, text: string)
    requires Represents(r, l) && Stashes(l, text)
    ensures Represents(RingUp(r, text).0, ListUp(l, text).0) <==> l.cursor != LIMIT - 1
  {
    UpAgrees(r, l, text);
    LooksAt(r, l);
    var r' := RingUp(r, text).0;
    forall k | 1 <= k <= SIZE
      ensures r'.lines[Slot(Next(r.realpos), k)] == if k <= |l.lines| + 1 then Some(([text] + l.lines)[k - 1]) else None
    {
      AddedSlots(r, l, text, k);
    }
    if l.cursor < LIMIT - 1 {
      assert r'.pos == Slot(Next(r.realpos), l.cursor + 2);
    }
  }

  /** What the user then sees: the ring stands on the empty line of the longer
      list, and down shows nothing where the list would show its 98th line. */
  lemma LostCursor(r: Ring, l: Listing, text: string)
    requires Represents(r, l) && Stashes(l, text) && l.cursor == LIMIT - 1
    ensures var r' := RingUp(r, text).0;
      Represents(r', Listing([text] + l.lines, 0)) &&
      RingDown(r').1 == None && ListDown(ListUp(l, text).0).1 == Some(l.lines[LIMIT - 2])
  {
    UpAgrees(r, l, text);
    LooksAt(r, l);
    forall k | 1 <= k <= SIZE
      ensures RingUp(r, text).0.lines[Slot(Next(r.realpos), k)] ==
              if k <= |l.lines| + 1 then Some(([text] + l.lines)[k - 1]) else None
    {
      AddedSlots(r, l, text, k);
    }
  }

  // ----- runs -----

  datatype Op = Add(text: string) | Up(text: string) | Down

  function RingStep(r: Ring, op: Op): (Ring, Option<string>)
    requires Valid(r)
  {
    match op
    case Add(text) => (RingAdd(r, text), None)
    case Up(text) => RingUp(r, text)
    case Down => RingDown(r)
  }

  function ListStep(l: Listing, op: Op): (Listing, Option<string>)
    requires l.cursor <= |l.lines|
  {
    match op
    case Add(text) => (ListAdd(l, text), None)
    case Up(text) => ListUp(l, text)
    case Down => ListDown(l)
  }

  lemma StepsKeepShape(r: Ring, l: Listing, op: Op)
    ensures Valid(r) ==> Valid(RingStep(r, op).0)
    ensures l.cursor <= |l.lines| ==> ListStep(l, op).0.cursor <= |ListStep(l, op).0.lines|
  {
  }

  /** What is shown, step by step. */
  function RingShows(r: Ring, ops: seq<Op>): seq<Option<string>>
    requires Valid(r)
    decreases |ops|
  {
    if ops == [] then []
    else
      StepsKeepShape(r, Listing([], 0), ops[0]);
      [RingStep(r, ops[0]).1] + RingShows(RingStep(r, ops[0]).0, ops[1..])
  }

  function ListShows(l: Listing, ops: seq<Op>): seq<Option<string>>
    requires l.cursor <= |l.lines|
    decreases |ops|
  {
    if ops == [] then []
    else
      StepsKeepShape(Ring([], 0, 0), l, ops[0]);
      [ListStep(l, ops[0]).1] + ListShows(ListStep(l, ops[0]).0, ops[1..])
  }

  /** No text is stashed from the line before the limit. */
  predicate Benign(l: Listing, ops: seq<Op>)
    requires l.cursor <= |l.lines|
    decreases |ops|
  {
    ops == [] ||
    (!(ops[0].Up? && Stashes(l, ops[0].text) && l.cursor == LIMIT - 1) &&
     (StepsKeepShape(Ring([], 0, 0), l, ops[0]); Benign(ListStep(l, ops[0]).0, ops[1..])))
  }

  lemma StepRefines(r: Ring, l: Listing, op: Op)
    requires Represents(r, l) && !(op.Up? && Stashes(l, op.text) && l.cursor == LIMIT - 1)
    ensures RingStep(r, op).1 == ListStep(l, op).1 && Represents(RingStep(r, op).0, ListStep(l, op).0)
  {
    hide Represents;
    match op
    case Add(text) => AddRefines(r, l, text);
    case Up(text) =>
      UpShowsSame(r, l, text);
      UpRefinesIff(r, l, text);
    case Down => DownRefines(r, l);
  }

  lemma Shape(r: Ring, l: Listing)
    requires Represents(r, l)
    ensures Valid(r) && l.cursor <= |l.lines|
  {
  }

  /** Over every benign run the ring shows what the list with its cursor shows. */
  lemma {:induction false} RingRefinesList(r: Ring, l: Listing, ops: seq<Op>)
    requires Represents(r, l) && l.cursor <= |l.lines| && Valid(r) && Benign(l, ops)
    ensures RingShows(r, ops) == ListShows(l, ops)
    decreases |ops|
  {
    hide Represents, RingStep, ListStep, Stashes;
    if ops != [] {
      StepRefines(r, l, ops[0]);
      var r1, l1 := RingStep(r, ops[0]).0, ListStep(l, ops[0]).0;
      Shape(r1, l1);
      RingRefinesList(r1, l1, ops[1..]);
    }
  }

  /** At every step up of a run, an empty slot under the browsing position is
      the write position. */
  predicate NullSafe(r: Ring, ops: seq<Op>)
    requires Valid(r)
    decreases |ops|
  {
    ops == [] ||
    ((r.lines[r.pos].None? ==> r.pos == r.realpos) &&
     (StepsKeepShape(r, Listing([], 0), ops[0]); NullSafe(RingStep(r, ops[0]).0, ops[1..])))
  }

  /** Over every run whatever, no comparison meets a missing line: even when the
      cursor is lost the ring stands for some list. */
  lemma {:induction false} NeverComparesNull(r: Ring, l: Listing, ops: seq<Op>)
    requires Represents(r, l) && Valid(r)
    ensures NullSafe(r, ops)
    decreases |ops|
  {
    hide Represents, RingStep, ListStep, Stashes;
    if ops != [] {
      NoNullCompared(r, l);
      Shape(r, l);
      var l1 := if ops[0].Up? && Stashes(l, ops[0].text) && l.cursor == LIMIT - 1
                then Listing([ops[0].text] + l.lines, 0) else ListStep(l, ops[0]).0;
      StandsForSome(r, l, ops[0]);
      Shape(RingStep(r, ops[0]).0, l1);
      NeverComparesNull(RingStep(r, ops[0]).0, l1, ops[1..]);
    }
  }

  lemma StandsForSome(r: Ring, l: Listing, op: Op)
    requires Represents(r, l) && Valid(r) && l.cursor <= |l.lines|
    ensures Represents(RingStep(r, op).0,
                       if op.Up? && Stashes(l, op.text) && l.cursor == LIMIT - 1
                       then Listing([op.text] + l.lines, 0) else ListStep(l, op).0)
  {
    hide Represents, ListStep, Stashes;
    if op.Up? && Stashes(l, op.text) && l.cursor == LIMIT - 1 {
      LostCursor(r, l, op.text);
    } else {
      StepRefines(r, l, op);
    }
  }

  lemma NoNullCompared(r: Ring, l: Listing)
    requires Represents(r, l)
    ensures r.lines[r.pos].None? ==> r.pos == r.realpos
  {
    LooksAt(r, l);
  }

  function Blank(): Ring {
    Ring(seq(SIZE, _ => None), 0, 0)
  }

  lemma BlankRepresentsNothing()
    ensures Represents(Blank(), Listing([], 0))
  {
  }

  // ----- what the list does -----

  function Ups(n: nat): seq<Op> {
    seq(n, _ => Up(""))
  }

  function Downs(n: nat): seq<Op> {
    seq(n, _ => Down)
  }

  function Reachable(l: Listing): nat {
    if |l.lines| < LIMIT then |l.lines| else LIMIT
  }

  /** Going up with nothing typed shows the lines newest first, up to the
      limit of 99, and then nothing more. */
  lemma {:induction false} UpShowsNewestFirst(l: Listing, n: nat)
    requires l.cursor <= Reachable(l)
    ensures |ListShows(l, Ups(n))| == n
    ensures forall i | 0 <= i < n :: ListShows(l, Ups(n))[i] ==
              if l.cursor + i < Reachable(l) then Some(l.lines[l.cursor + i]) else None
    decreases n
  {
    if n > 0 {
      assert Ups(n)[0] == Up("") && Ups(n)[1..] == Ups(n - 1);
      UpShowsNewestFirst(ListUp(l, "").0, n - 1);
    }
  }

  /** Going down retraces the lines, back to the empty line. */
  lemma {:induction false} DownRetraces(l: Listing, n: nat)
    requires l.cursor <= |l.lines|
    ensures |ListShows(l, Downs(n))| == n
    ensures forall i | 0 <= i < n :: ListShows(l, Downs(n))[i] ==
              if i + 1 < l.cursor then Some(l.lines[l.cursor - 2 - i])
              else if i + 1 == l.cursor then Some("") else None
    decreases n
  {
    if n > 0 {
      assert Downs(n)[0] == Down && Downs(n)[1..] == Downs(n - 1);
      DownRetraces(ListDown(l).0, n - 1);
    }
  }

  lemma {:induction false} UpsAreBenign(l: Listing, n: nat)
    requires l.cursor <= |l.lines|
    ensures Benign(l, Ups(n))
    decreases n
  {
    if n > 0 {
      assert Ups(n)[0] == Up("") && Ups(n)[1..] == Ups(n - 1);
      UpsAreBenign(ListUp(l, "").0, n - 1);
    }
  }

  /** So does the ring, from the empty line, whatever was added before. */
  lemma RingUpShowsNewestFirst(r: Ring, l: Listing, n: nat)
    requires Represents(r, l) && Valid(r) && l.cursor == 0
    ensures |RingShows(r, Ups(n))| == n
    ensures forall i | 0 <= i < n :: RingShows(r, Ups(n))[i] == if i < Reachable(l) then Some(l.lines[i]) else None
  {
    hide Represents, RingShows, ListShows, Benign;
    UpsAreBenign(l, n);
    RingRefinesList(r, l, Ups(n));
    UpShowsNewestFirst(l, n);
  }
}
