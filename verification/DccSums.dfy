/**
 The transfer-rate accounting of DCC: two global sums that the global rate
 limits are tested against, kept by adding differences.  Whatever happens to
 the transfers, the send sum is the total rate of the active sends; the receive
 sum is off by exactly what DCC chats put in.
 */
module DccSums {
  import opened Wrappers

  datatype Kind = Send | Recv | ChatSend | ChatRecv

  datatype Status = Queued | Active | Failed | Done | Connecting | Aborted

  /** `sampled` is false until the first rate measurement; a transfer is held
      back by its own limit, by the global one, or by both. */
  datatype Dcc = Dcc(id: nat, kind: Kind, status: Status, cps: int, sampled: bool, maxcps: int,
                     ownThrottle: bool, globalThrottle: bool)

  /** The list of transfers, newest first, and the global sums and throttle bits. */
  datatype Table = Table(list: seq<Dcc>, sendSum: int, getSum: int, sendThrottle: bool, getThrottle: bool)

  /** What the clock and the sockets say of one transfer: its newly smoothed
      rate, whether it stalled or its offer expired, and, when it is woken from
      a throttle, whether that ends it (with a status and an average rate). */
  datatype Reading = Reading(rate: int, stalled: bool, expired: bool, woken: Option<(Status, int)>)

  datatype Prefs = Prefs(sendLimit: int, getLimit: int, remove: bool)

  function SumFor(t: Table, kind: Kind): int {
    if kind == Send then t.sendSum else t.getSum
  }

  function AddTo(t: Table, kind: Kind, delta: int): Table {
    if kind == Send then t.(sendSum := t.sendSum + delta) else t.(getSum := t.getSum + delta)
  }

  predicate Throttled(d: Dcc) {
    d.ownThrottle || d.globalThrottle
  }

  /** dcc_remove_from_sum. */
  function RemoveFromSum(t: Table, d: Dcc): Table {
    if d.status != Active then t
    else if d.kind == Send then t.(sendSum := t.sendSum - d.cps)
    else if d.kind == Recv then t.(getSum := t.getSum - d.cps)
    else t
  }

  /** dcc_close, and the average rate written afterwards when a transfer completes. */
  function Close(t: Table, i: nat, status: Status, destroy: bool, average: Option<int>): Table
    requires i < |t.list|
  {
    var d := t.list[i];
    RemoveFromSum(t, d).(list := if destroy then t.list[..i] + t.list[i + 1..]
                                 else t.list[i := d.(status := status, cps := if average.Some? then average.value else d.cps)])
  }

  /** The rate and its difference in the sum; a first sample only starts the clock. */
  function Sample(t: Table, i: nat, rate: int): Table
    requires i < |t.list|
  {
    var d := t.list[i];
    if !d.sampled then t.(list := t.list[i := d.(sampled := true)])
    else AddTo(t, d.kind, rate - d.cps).(list := t.list[i := d.(cps := rate)])
  }

  /** The test against the global and the transfer's own limit. */
  function TestLimits(t: Table, i: nat, prefs: Prefs): Table
    requires i < |t.list|
  {
    var d := t.list[i];
    var limit := if d.kind == Send then prefs.sendLimit else prefs.getLimit;
    var over := limit > 0 && SumFor(t, d.kind) >= limit;
    t.(list := t.list[i := d.(globalThrottle := over && d.maxcps >= 0, ownThrottle := d.maxcps > 0 && d.cps > d.maxcps)],
       sendThrottle := if d.kind == Send then over else t.sendThrottle,
       getThrottle := if d.kind == Send then t.getThrottle else over)
  }

  /** dcc_calc_cps: a transfer that is no longer throttled is worked at once. */
  function CalcCps(t: Table, i: nat, prefs: Prefs, r: Reading): (t': Table)
    requires i < |t.list|
    ensures |t'.list| == |t.list|
  {
    var t1 := TestLimits(Sample(t, i, r.rate), i, prefs);
    if Throttled(t.list[i]) && !Throttled(t1.list[i]) && r.woken.Some?
    then Close(t1, i, r.woken.value.0, false, Some(r.woken.value.1)) else t1
  }

  /** One turn of dcc_check_timeouts; true when the transfer left the list. */
  function CheckOne(t: Table, i: nat, prefs: Prefs, r: Reading): (Table, bool)
    requires i < |t.list|
  {
    var d := t.list[i];
    match d.status
    case Active =>
      var t1 := CalcCps(t, i, prefs, r);
      if (d.kind == Send || d.kind == Recv) && r.stalled && !Throttled(t1.list[i])
      then (Close(t1, i, Aborted, false, None), false) else (t1, false)
    case Queued =>
      if (d.kind == Send || d.kind == ChatSend) && r.expired then (Close(t, i, Aborted, false, None), false) else (t, false)
    case Connecting => (t, false)
    case _ => if prefs.remove then (Close(t, i, Queued, true, None), true) else (t, false)
  }

  function CheckFrom(t: Table, i: nat, prefs: Prefs, readings: nat -> Reading): Table
    requires i <= |t.list|
    decreases |t.list| - i
  {
    if i == |t.list| then t
    else
      var (t1, gone) := CheckOne(t, i, prefs, readings(t.list[i].id));
      CheckOneLength(t, i, prefs, readings(t.list[i].id));
      CheckFrom(t1, if gone then i else i + 1, prefs, readings)
  }

  lemma CheckOneLength(t: Table, i: nat, prefs: Prefs, r: Reading)
    requires i < |t.list|
    ensures |CheckOne(t, i, prefs, r).0.list| == |t.list| - if CheckOne(t, i, prefs, r).1 then 1 else 0
  {
    hide Sample, TestLimits, RemoveFromSum;
  }

  // ----- what the sums are -----

  function Weight(d: Dcc, kind: Kind): int {
    if d.status == Active && d.kind == kind then d.cps else 0
  }

  /** Total rate of the active transfers of a kind. */
  function Rate(list: seq<Dcc>, kind: Kind): int {
    if list == [] then 0 else Weight(list[0], kind) + Rate(list[1..], kind)
  }

  lemma {:induction false} RateUpdate(list: seq<Dcc>, i: nat, d: Dcc, kind: Kind)
    requires i < |list|
    ensures Rate(list[i := d], kind) == Rate(list, kind) - Weight(list[i], kind) + Weight(d, kind)
  {
    if i > 0 {
      RateUpdate(list[1..], i - 1, d, kind);
      assert list[i := d][1..] == list[1..][i - 1 := d];
    } else {
      assert list[i := d][1..] == list[1..];
    }
  }

  lemma {:induction false} RateRemove(list: seq<Dcc>, i: nat, kind: Kind)
    requires i < |list|
    ensures Rate(list[..i] + list[i + 1..], kind) == Rate(list, kind) - Weight(list[i], kind)
  {
    var rest := list[..i] + list[i + 1..];
    if i > 0 {
      RateRemove(list[1..], i - 1, kind);
      assert rest[1..] == list[1..][..i - 1] + list[1..][i..];
    } else {
      assert rest == list[1..];
    }
  }

  /** A transfer that is not running yet has no rate. */
  predicate Unstarted(list: seq<Dcc>) {
    forall d <- list :: d.status == Queued || d.status == Connecting ==> d.cps == 0
  }

  /** What the sums hold beyond the active transfers they are about. */
  function SendExcess(t: Table): int {
    t.sendSum - Rate(t.list, Send)
  }

  function GetExcess(t: Table): int {
    t.getSum - Rate(t.list, Recv) - Rate(t.list, ChatSend) - Rate(t.list, ChatRecv)
  }

  // ----- events -----

  datatype Event =
    | New(kind: Kind, id: nat, maxcps: int)
    | Connects(i: nat)
    | ConnectFails(i: nat)
    | Starts(i: nat)
    | Ends(i: nat, status: Status, average: Option<int>)
    | Abort(i: nat)
    | Destroy(i: nat)
    | SecondPasses(prefs: Prefs, readings: nat -> Reading)

  predicate IsOver(s: Status) {
    s == Failed || s == Done || s == Aborted
  }

  predicate StatusIs(t: Table, i: nat, allowed: set<Status>) {
    i < |t.list| && t.list[i].status in allowed
  }

  /** When the program can cause the event. */
  predicate Possible(t: Table, e: Event) {
    match e
    case New(_, _, _) => true
    case Connects(i) => StatusIs(t, i, {Queued})
    case ConnectFails(i) => StatusIs(t, i, {Connecting})
    case Starts(i) => StatusIs(t, i, {Queued, Connecting})
    case Ends(i, status, average) => i < |t.list| && IsOver(status)
    case Abort(i) => i < |t.list|
    case Destroy(i) => i < |t.list|
    case SecondPasses(_, readings) =>
      forall d <- t.list :: readings(d.id).woken.Some? ==> IsOver(readings(d.id).woken.value.0)
  }

  function SetStatus(t: Table, i: nat, status: Status): Table
    requires i < |t.list|
  {
    t.(list := t.list[i := t.list[i].(status := status)])
  }

  function Step(t: Table, e: Event): Table
    requires Possible(t, e)
  {
    match e
    case New(kind, id, maxcps) => t.(list := [Dcc(id, kind, Queued, 0, false, maxcps, false, false)] + t.list)
    case Connects(i) => SetStatus(t, i, Connecting)
    case ConnectFails(i) => SetStatus(t, i, Failed)
    case Starts(i) => SetStatus(t, i, Active)
    case Ends(i, status, average) => Close(t, i, status, false, average)
    case Abort(i) =>
      if t.list[i].status in {Queued, Connecting, Active} then Close(t, i, Aborted, false, None)
      else Close(t, i, Queued, true, None)
    case Destroy(i) => Close(t, i, Queued, true, None)
    case SecondPasses(prefs, readings) => CheckFrom(t, 0, prefs, readings)
  }

  // ----- conservation -----

  predicate IsChat(kind: Kind) {
    kind == ChatSend || kind == ChatRecv
  }

  /** What closing a transfer leaves behind in the receive sum. */
  function Left(d: Dcc): int {
    if IsChat(d.kind) && d.status == Active then d.cps else 0
  }

  lemma CloseExcess(t: Table, i: nat, status: Status, destroy: bool, average: Option<int>)
    requires i < |t.list| && (!destroy ==> status != Active)
    ensures SendExcess(Close(t, i, status, destroy, average)) == SendExcess(t)
    ensures GetExcess(Close(t, i, status, destroy, average)) == GetExcess(t) + Left(t.list[i])
  {
    hide Rate;
    var d := t.list[i];
    var d' := d.(status := status, cps := if average.Some? then average.value else d.cps);
    forall kind: Kind ensures
      Rate(Close(t, i, status, destroy, average).list, kind) == Rate(t.list, kind) - Weight(d, kind)
    {
      RateUpdate(t.list, i, d', kind);
      RateRemove(t.list, i, kind);
    }
    assert Rate(Close(t, i, status, destroy, average).list, Send) == Rate(t.list, Send) - Weight(d, Send);
    assert Rate(Close(t, i, status, destroy, average).list, Recv) == Rate(t.list, Recv) - Weight(d, Recv);
    assert Rate(Close(t, i, status, destroy, average).list, ChatSend) == Rate(t.list, ChatSend) - Weight(d, ChatSend);
    assert Rate(Close(t, i, status, destroy, average).list, ChatRecv) == Rate(t.list, ChatRecv) - Weight(d, ChatRecv);
  }

  lemma SampleExcess(t: Table, i: nat, rate: int)
    requires i < |t.list| && t.list[i].status == Active
    ensures SendExcess(Sample(t, i, rate)) == SendExcess(t) && GetExcess(Sample(t, i, rate)) == GetExcess(t)
  {
    hide Rate;
    var d' := Sample(t, i, rate).list[i];
    RateUpdate(t.list, i, d', Send);
    RateUpdate(t.list, i, d', Recv);
    RateUpdate(t.list, i, d', ChatSend);
    RateUpdate(t.list, i, d', ChatRecv);
  }

  lemma SameRates(t: Table, t': Table, i: nat, d: Dcc)
    requires i < |t.list| && t'.list == t.list[i := d] && t'.sendSum == t.sendSum && t'.getSum == t.getSum
    requires forall kind: Kind :: Weight(d, kind) == Weight(t.list[i], kind)
    ensures SendExcess(t') == SendExcess(t) && GetExcess(t') == GetExcess(t)
  {
    hide Rate;
    RateUpdate(t.list, i, d, Send);
    RateUpdate(t.list, i, d, Recv);
    RateUpdate(t.list, i, d, ChatSend);
    RateUpdate(t.list, i, d, ChatRecv);
  }

  /** A rate measurement leaves both sums right; only a chat ended by being
      woken leaves something behind. */
  lemma CalcExcess(t: Table, i: nat, prefs: Prefs, r: Reading)
    requires i < |t.list| && t.list[i].status == Active
    requires r.woken.Some? ==> IsOver(r.woken.value.0)
    ensures var t' := CalcCps(t, i, prefs, r);
      SendExcess(t') == SendExcess(t) &&
      (!IsChat(t.list[i].kind) ==> GetExcess(t') == GetExcess(t)) &&
      t'.list[i].kind == t.list[i].kind && (t'.list[i].status == Active || IsOver(t'.list[i].status))
  {
    hide SendExcess, GetExcess, Rate;
    var t0 := Sample(t, i, r.rate);
    SampleExcess(t, i, r.rate);
    var t1 := TestLimits(t0, i, prefs);
    SameRates(t0, t1, i, t1.list[i]);
    if r.woken.Some? {
      CloseExcess(t1, i, r.woken.value.0, false, Some(r.woken.value.1));
    }
  }

  /** After a measurement that wakes nobody up, the bits say what their own
      limits say: the bit of the sends is set exactly when the sum of the sends
      has reached the limit on sending, the bit of everything else exactly when
      the other sum has reached the limit on receiving, whichever was measured;
      the transfer is held back by that unless it is exempt, and by its own
      limit exactly when its own rate is over it. */
  lemma ThrottledIff(t: Table, i: nat, prefs: Prefs, r: Reading)
    requires i < |t.list| && r.woken.None?
    ensures var t' := CalcCps(t, i, prefs, r); var d := t'.list[i];
      (d.kind == Send ==>
         (t'.sendThrottle <==> prefs.sendLimit > 0 && t'.sendSum >= prefs.sendLimit) &&
         (d.globalThrottle <==> t'.sendThrottle && d.maxcps >= 0) &&
         t'.getThrottle == t.getThrottle && t'.getSum == t.getSum) &&
      (d.kind != Send ==>
         (t'.getThrottle <==> prefs.getLimit > 0 && t'.getSum >= prefs.getLimit) &&
         (d.globalThrottle <==> t'.getThrottle && d.maxcps >= 0) &&
         t'.sendThrottle == t.sendThrottle && t'.sendSum == t.sendSum) &&
      (d.ownThrottle <==> d.maxcps > 0 && d.cps > d.maxcps) &&
      d.cps == (if t.list[i].sampled then r.rate else t.list[i].cps) &&
      forall j | 0 <= j < |t.list| && j != i :: t'.list[j] == t.list[j]
  {
  }

  /** What one second does to a transfer that is not woken up.  An active one
      is aborted exactly when it is a file transfer that stalled and is not
      held back; a queued one exactly when it is an offer of ours that expired;
      one that is over leaves the list exactly when the user wants that; nothing
      else is closed or removed. */
  lemma ClosedByClockIff(t: Table, i: nat, prefs: Prefs, r: Reading)
    requires i < |t.list| && r.woken.None?
    ensures var (t', gone) := CheckOne(t, i, prefs, r); var d := t.list[i];
      (gone <==> d.status != Active && d.status != Queued && d.status != Connecting && prefs.remove) &&
      (gone ==> t'.list == t.list[..i] + t.list[i + 1..]) &&
      (!gone ==> |t'.list| == |t.list| && (forall j | 0 <= j < |t.list| && j != i :: t'.list[j] == t.list[j])) &&
      (!gone ==>
         (t'.list[i].status != d.status <==>
          (d.status == Active && (d.kind == Send || d.kind == Recv) && r.stalled &&
           !t'.list[i].ownThrottle && !t'.list[i].globalThrottle) ||
          (d.status == Queued && (d.kind == Send || d.kind == ChatSend) && r.expired)) &&
         (t'.list[i].status != d.status ==> t'.list[i].status == Aborted))
  {
  }

  predicate NoChats(list: seq<Dcc>) {
    forall d <- list :: !IsChat(d.kind)
  }

  /** Transfers left alone or over, or the same but for their rates. */
  predicate Follows(t: Table, t': Table) {
    (Unstarted(t.list) ==> Unstarted(t'.list)) && (NoChats(t.list) ==> NoChats(t'.list))
  }

  /** Both sums stay right; the receive sum as long as there are no chats. */
  predicate Kept(t: Table, t': Table) {
    SendExcess(t') == SendExcess(t) && (NoChats(t.list) ==> GetExcess(t') == GetExcess(t)) && Follows(t, t')
  }

  lemma CloseKeeps(t: Table, i: nat, status: Status, destroy: bool, average: Option<int>)
    requires i < |t.list| && (destroy || IsOver(status))
    ensures Kept(t, Close(t, i, status, destroy, average))
  {
    hide SendExcess, GetExcess;
    CloseExcess(t, i, status, destroy, average);
    assert t.list[i] in t.list;
  }

  lemma CalcKeeps(t: Table, i: nat, prefs: Prefs, r: Reading)
    requires i < |t.list| && t.list[i].status == Active
    requires r.woken.Some? ==> IsOver(r.woken.value.0)
    ensures Kept(t, CalcCps(t, i, prefs, r))
  {
    hide SendExcess, GetExcess, SumFor;
    CalcExcess(t, i, prefs, r);
    assert t.list[i] in t.list;
    var t' := CalcCps(t, i, prefs, r);
    assert t'.list == t.list[i := t'.list[i]];
  }

  lemma CheckOneKeeps(t: Table, i: nat, prefs: Prefs, r: Reading)
    requires i < |t.list|
    requires r.woken.Some? ==> IsOver(r.woken.value.0)
    ensures Kept(t, CheckOne(t, i, prefs, r).0)
  {
    hide SendExcess, GetExcess, CalcCps, Close, Unstarted, NoChats;
    match t.list[i].status
    case Active =>
      CalcKeeps(t, i, prefs, r);
      CloseKeeps(CalcCps(t, i, prefs, r), i, Aborted, false, None);
    case Queued => CloseKeeps(t, i, Aborted, false, None);
    case Connecting =>
    case _ => CloseKeeps(t, i, Queued, true, None);
  }

  predicate Sensible(list: seq<Dcc>, readings: nat -> Reading) {
    forall d <- list :: readings(d.id).woken.Some? ==> IsOver(readings(d.id).woken.value.0)
  }

  lemma CalcIds(t: Table, i: nat, prefs: Prefs, r: Reading)
    requires i < |t.list|
    ensures var t' := CalcCps(t, i, prefs, r); t'.list == t.list[i := t'.list[i]] && t'.list[i].id == t.list[i].id
  {
    hide SumFor, RemoveFromSum, Throttled;
  }

  lemma CheckOneIds(t: Table, i: nat, prefs: Prefs, r: Reading)
    requires i < |t.list|
    ensures forall d' <- CheckOne(t, i, prefs, r).0.list :: exists d <- t.list :: d.id == d'.id
  {
    hide SumFor, RemoveFromSum, Throttled, CalcCps;
    CalcIds(t, i, prefs, r);
    var t' := CheckOne(t, i, prefs, r).0;
    assert t.list[i] in t.list;
    forall d' <- t'.list ensures exists d <- t.list :: d.id == d'.id {
      assert d' in t.list || d'.id == t.list[i].id;
    }
  }

  lemma {:induction false} CheckKeeps(t: Table, i: nat, prefs: Prefs, readings: nat -> Reading)
    requires i <= |t.list| && Sensible(t.list, readings)
    ensures Kept(t, CheckFrom(t, i, prefs, readings))
    decreases |t.list| - i
  {
    hide SendExcess, GetExcess, CheckOne, Unstarted, NoChats;
    if i < |t.list| {
      var r := readings(t.list[i].id);
      var (t1, gone) := CheckOne(t, i, prefs, r);
      assert t.list[i] in t.list;
      CheckOneKeeps(t, i, prefs, r);
      CheckOneIds(t, i, prefs, r);
      CheckOneLength(t, i, prefs, r);
      CheckKeeps(t1, if gone then i else i + 1, prefs, readings);
    }
  }

  lemma StatusKeeps(t: Table, i: nat, status: Status)
    requires StatusIs(t, i, {Queued, Connecting}) && Unstarted(t.list)
    requires status != Queued
    ensures Kept(t, SetStatus(t, i, status))
  {
    hide SendExcess, GetExcess;
    assert t.list[i] in t.list;
    var d := t.list[i].(status := status);
    SameRates(t, SetStatus(t, i, status), i, d);
  }

  lemma StepKeeps(t: Table, e: Event)
    requires Possible(t, e) && Unstarted(t.list) && !(e.New? && IsChat(e.kind))
    ensures Kept(t, Step(t, e))
  {
    hide SendExcess, GetExcess, Close, CheckFrom, SetStatus;
    match e
    case New(kind, id, maxcps) => NewKeeps(t, kind, id, maxcps);
    case Connects(i) => StatusKeeps(t, i, Connecting);
    case ConnectFails(i) => StatusKeeps(t, i, Failed);
    case Starts(i) => StatusKeeps(t, i, Active);
    case Ends(i, status, average) => CloseKeeps(t, i, status, false, average);
    case Abort(i) =>
      CloseKeeps(t, i, Aborted, false, None);
      CloseKeeps(t, i, Queued, true, None);
    case Destroy(i) => CloseKeeps(t, i, Queued, true, None);
    case SecondPasses(prefs, readings) => CheckKeeps(t, 0, prefs, readings);
  }

  lemma NewKeeps(t: Table, kind: Kind, id: nat, maxcps: int)
    requires !IsChat(kind)
    ensures Kept(t, Step(t, New(kind, id, maxcps)))
  {
    var d := Dcc(id, kind, Queued, 0, false, maxcps, false, false);
    assert ([d] + t.list)[1..] == t.list;
  }

  /** A chat joins the list without touching either sum. */
  lemma ChatJoins(t: Table, kind: Kind, id: nat, maxcps: int)
    ensures var t' := Step(t, New(kind, id, maxcps));
      SendExcess(t') == SendExcess(t) && GetExcess(t') == GetExcess(t) && (Unstarted(t.list) ==> Unstarted(t'.list))
  {
    var d := Dcc(id, kind, Queued, 0, false, maxcps, false, false);
    assert ([d] + t.list)[1..] == t.list;
  }

  // ----- runs -----

  predicate PossibleRun(t: Table, run: seq<Event>)
    decreases |run|
  {
    run == [] || (Possible(t, run[0]) && PossibleRun(Step(t, run[0]), run[1..]))
  }

  function AfterRun(t: Table, run: seq<Event>): Table
    requires PossibleRun(t, run)
    decreases |run|
  {
    if run == [] then t else AfterRun(Step(t, run[0]), run[1..])
  }

  /** No transfers, nothing in the sums. */
  predicate Nothing(t: Table) {
    |t.list| == 0 && t.sendSum == 0 && t.getSum == 0
  }

  lemma {:induction false} SendSumFrom(t: Table, run: seq<Event>)
    requires PossibleRun(t, run) && Unstarted(t.list)
    ensures SendExcess(AfterRun(t, run)) == SendExcess(t)
    decreases |run|
  {
    hide SendExcess, GetExcess, Step, Possible, Unstarted, NoChats;
    if run != [] {
      if run[0].New? {
        ChatJoins(t, run[0].kind, run[0].id, run[0].maxcps);
      } else {
        StepKeeps(t, run[0]);
      }
      SendSumFrom(Step(t, run[0]), run[1..]);
    }
  }

  /** In every reachable state the send sum is the total rate of the active sends. */
  lemma SendSumConserved(start: Table, run: seq<Event>)
    requires Nothing(start) && PossibleRun(start, run)
    ensures AfterRun(start, run).sendSum == Rate(AfterRun(start, run).list, Send)
  {
    hide AfterRun, PossibleRun, Step, Possible, Rate, Unstarted, Nothing;
    NothingSums(start);
    SendSumFrom(start, run);
  }

  ghost predicate WithoutChats(run: seq<Event>) {
    forall e <- run :: e.New? ==> !IsChat(e.kind)
  }

  lemma {:induction false} GetSumFrom(t: Table, run: seq<Event>)
    requires PossibleRun(t, run) && Unstarted(t.list) && NoChats(t.list) && WithoutChats(run)
    ensures GetExcess(AfterRun(t, run)) == GetExcess(t) && NoChats(AfterRun(t, run).list)
    decreases |run|
  {
    hide SendExcess, GetExcess, Step, Possible, Unstarted, NoChats;
    if run != [] {
      assert run[0] in run && forall e <- run[1..] :: e in run;
      StepKeeps(t, run[0]);
      GetSumFrom(Step(t, run[0]), run[1..]);
    }
  }

  lemma {:induction false} NoChatRate(list: seq<Dcc>)
    requires NoChats(list)
    ensures Rate(list, ChatSend) == 0 && Rate(list, ChatRecv) == 0
  {
    if list != [] {
      assert list[0] in list && forall d <- list[1..] :: d in list;
      NoChatRate(list[1..]);
    }
  }

  /** In every state reached without DCC chats the receive sum is the total
      rate of the active receives. */
  lemma GetSumConserved(start: Table, run: seq<Event>)
    requires Nothing(start) && PossibleRun(start, run) && WithoutChats(run)
    ensures AfterRun(start, run).getSum == Rate(AfterRun(start, run).list, Recv)
  {
    hide NoChats, AfterRun, PossibleRun, Step, Possible, WithoutChats, Rate, Unstarted, Nothing;
    NothingSums(start);
    GetSumFrom(start, run);
    NoChatRate(AfterRun(start, run).list);
  }

  lemma NothingSums(t: Table)
    requires Nothing(t)
    ensures SendExcess(t) == 0 && GetExcess(t) == 0 && Unstarted(t.list) && NoChats(t.list)
  {
  }

  /** A chat's measured rate enters the receive sum and is never taken out: a
      single closing of an active transfer keeps the sum right exactly when it
      is not a chat with a rate. */
  lemma ClosingKeepsGetSumIff(t: Table, i: nat, status: Status, destroy: bool, average: Option<int>)
    requires i < |t.list| && (!destroy ==> status != Active)
    ensures GetExcess(Close(t, i, status, destroy, average)) == GetExcess(t) <==>
            !(IsChat(t.list[i].kind) && t.list[i].status == Active && t.list[i].cps != 0)
  {
    CloseExcess(t, i, status, destroy, average);
  }

  // ----- what chats leave behind, over every run -----

  /** The rate a measurement leaves behind: that of a chat it ends. */
  function LeftByCalc(t: Table, i: nat, prefs: Prefs, r: Reading): int
    requires i < |t.list|
  {
    var t1 := TestLimits(Sample(t, i, r.rate), i, prefs);
    if Throttled(t.list[i]) && !Throttled(t1.list[i]) && r.woken.Some? then Left(t1.list[i]) else 0
  }

  function LeftByCheck(t: Table, i: nat, prefs: Prefs, readings: nat -> Reading): int
    requires i <= |t.list|
    decreases |t.list| - i
  {
    if i == |t.list| then 0
    else
      var r := readings(t.list[i].id);
      var (t1, gone) := CheckOne(t, i, prefs, r);
      CheckOneLength(t, i, prefs, r);
      (if t.list[i].status == Active then LeftByCalc(t, i, prefs, r) else 0) +
      LeftByCheck(t1, if gone then i else i + 1, prefs, readings)
  }

  /** The rates of the active chats that an event closes. */
  function LeftBy(t: Table, e: Event): int
    requires Possible(t, e)
  {
    match e
    case Ends(i, _, _) => Left(t.list[i])
    case Abort(i) => Left(t.list[i])
    case Destroy(i) => Left(t.list[i])
    case SecondPasses(prefs, readings) => LeftByCheck(t, 0, prefs, readings)
    case _ => 0
  }

  lemma CalcLeaves(t: Table, i: nat, prefs: Prefs, r: Reading)
    requires i < |t.list| && t.list[i].status == Active
    requires r.woken.Some? ==> IsOver(r.woken.value.0)
    ensures GetExcess(CalcCps(t, i, prefs, r)) == GetExcess(t) + LeftByCalc(t, i, prefs, r)
    ensures CalcCps(t, i, prefs, r).list[i].kind == t.list[i].kind
  {
    hide SendExcess, GetExcess, Rate;
    var t0 := Sample(t, i, r.rate);
    SampleExcess(t, i, r.rate);
    var t1 := TestLimits(t0, i, prefs);
    SameRates(t0, t1, i, t1.list[i]);
    if r.woken.Some? {
      CloseExcess(t1, i, r.woken.value.0, false, Some(r.woken.value.1));
    }
  }

  lemma CheckOneLeaves(t: Table, i: nat, prefs: Prefs, r: Reading)
    requires i < |t.list|
    requires r.woken.Some? ==> IsOver(r.woken.value.0)
    ensures GetExcess(CheckOne(t, i, prefs, r).0) ==
            GetExcess(t) + if t.list[i].status == Active then LeftByCalc(t, i, prefs, r) else 0
  {
    hide GetExcess, CalcCps, Close, LeftByCalc;
    match t.list[i].status
    case Active =>
      CalcLeaves(t, i, prefs, r);
      CloseExcess(CalcCps(t, i, prefs, r), i, Aborted, false, None);
    case Queued => CloseExcess(t, i, Aborted, false, None);
    case Connecting =>
    case _ => CloseExcess(t, i, Queued, true, None);
  }

  lemma {:induction false} CheckLeaves(t: Table, i: nat, prefs: Prefs, readings: nat -> Reading)
    requires i <= |t.list| && Sensible(t.list, readings)
    ensures GetExcess(CheckFrom(t, i, prefs, readings)) == GetExcess(t) + LeftByCheck(t, i, prefs, readings)
    decreases |t.list| - i
  {
    hide GetExcess, CheckOne, LeftByCalc;
    if i < |t.list| {
      var r := readings(t.list[i].id);
      var (t1, gone) := CheckOne(t, i, prefs, r);
      assert t.list[i] in t.list;
      CheckOneLeaves(t, i, prefs, r);
      CheckOneIds(t, i, prefs, r);
      CheckOneLength(t, i, prefs, r);
      CheckLeaves(t1, if gone then i else i + 1, prefs, readings);
    }
  }

  lemma StatusLeaves(t: Table, i: nat, status: Status)
    requires StatusIs(t, i, {Queued, Connecting}) && Unstarted(t.list)
    ensures GetExcess(SetStatus(t, i, status)) == GetExcess(t)
  {
    hide GetExcess;
    assert t.list[i] in t.list;
    SameRates(t, SetStatus(t, i, status), i, t.list[i].(status := status));
  }

  lemma StepLeaves(t: Table, e: Event)
    requires Possible(t, e) && Unstarted(t.list)
    ensures GetExcess(Step(t, e)) == GetExcess(t) + LeftBy(t, e) && Unstarted(Step(t, e).list)
  {
    hide GetExcess, SendExcess, Close, CheckFrom, SetStatus, LeftByCheck, Rate;
    if e.New? {
      ChatJoins(t, e.kind, e.id, e.maxcps);
    } else {
      StepKeeps(t, e);
      match e
      case New(_, _, _) =>
      case Connects(i) => StatusLeaves(t, i, Connecting);
      case ConnectFails(i) => StatusLeaves(t, i, Failed);
      case Starts(i) => StatusLeaves(t, i, Active);
      case Ends(i, status, average) => CloseExcess(t, i, status, false, average);
      case Abort(i) =>
        CloseExcess(t, i, Aborted, false, None);
        CloseExcess(t, i, Queued, true, None);
      case Destroy(i) => CloseExcess(t, i, Queued, true, None);
      case SecondPasses(prefs, readings) => CheckLeaves(t, 0, prefs, readings);
    }
  }

  function TotalLeft(t: Table, run: seq<Event>): int
    requires PossibleRun(t, run)
    decreases |run|
  {
    if run == [] then 0 else LeftBy(t, run[0]) + TotalLeft(Step(t, run[0]), run[1..])
  }

  lemma {:induction false} GetSumLeaves(t: Table, run: seq<Event>)
    requires PossibleRun(t, run) && Unstarted(t.list)
    ensures GetExcess(AfterRun(t, run)) == GetExcess(t) + TotalLeft(t, run)
    decreases |run|
  {
    hide GetExcess, Step, Possible, LeftBy;
    if run != [] {
      StepLeaves(t, run[0]);
      GetSumLeaves(Step(t, run[0]), run[1..]);
    }
  }

  /** In every reachable state the receive sum is the total rate of the active
      receives and chats, and the rates of the chats that were active when they
      were closed on top. */
  lemma GetSumIs(start: Table, run: seq<Event>)
    requires Nothing(start) && PossibleRun(start, run)
    ensures var t := AfterRun(start, run);
      t.getSum == Rate(t.list, Recv) + Rate(t.list, ChatSend) + Rate(t.list, ChatRecv) + TotalLeft(start, run)
  {
    hide AfterRun, PossibleRun, Step, Possible, Rate, Unstarted, Nothing, TotalLeft;
    NothingSums(start);
    GetSumLeaves(start, run);
  }

  const NO_LIMITS := Prefs(0, 0, false)

  function Rated(rate: int): nat -> Reading {
    _ => Reading(rate, false, false, None)
  }

  /** The only transfer, an unlimited chat, is measured. */
  lemma ChatIsMeasured(d: Dcc, sum: int, rate: int)
    requires d.kind == ChatSend && d.status == Active && d.id == 0 && d.maxcps == 0 && !Throttled(d)
    ensures CheckFrom(Table([d], 0, sum, false, false), 0, NO_LIMITS, Rated(rate)) ==
            if d.sampled then Table([d.(cps := rate)], 0, sum + rate - d.cps, false, false)
            else Table([d.(sampled := true)], 0, sum, false, false)
  {
    var t := Table([d], 0, sum, false, false);
    var r := Rated(rate)(0);
    var d' := if d.sampled then d.(cps := rate) else d.(sampled := true);
    var t' := Table([d'], 0, if d.sampled then sum + rate - d.cps else sum, false, false);
    assert [d][0 := d'] == [d'] && [d'][0 := d'] == [d'];
    assert Sample(t, 0, rate) == t';
    assert TestLimits(t', 0, NO_LIMITS) == t';
    assert CheckOne(t, 0, NO_LIMITS, r) == (t', false);
    assert CheckFrom(t', 1, NO_LIMITS, Rated(rate)) == t';
  }

  /** A chat that was measured and then closed: no transfer is left, and its
      rate is in the receive sum for good. */
  lemma ChatLeavesItsRate(rate: int)
    ensures var t0 := Table([], 0, 0, false, false);
      var t1 := Step(t0, New(ChatSend, 0, 0));
      Possible(t1, Starts(0)) &&
      var t2 := Step(t1, Starts(0));
      Possible(t2, SecondPasses(NO_LIMITS, Rated(rate))) &&
      var t3 := Step(t2, SecondPasses(NO_LIMITS, Rated(rate)));
      Possible(t3, SecondPasses(NO_LIMITS, Rated(rate))) &&
      var t4 := Step(t3, SecondPasses(NO_LIMITS, Rated(rate)));
      Possible(t4, Destroy(0)) &&
      var t5 := Step(t4, Destroy(0));
      t5.list == [] && t5.getSum == rate
  {
    hide CheckFrom;
    var q := Dcc(0, ChatSend, Queued, 0, false, 0, false, false);
    var d := q.(status := Active);
    assert [q] + [] == [q] && [q][0 := d] == [d];
    ChatIsMeasured(d, 0, rate);
    ChatIsMeasured(d.(sampled := true), 0, rate);
  }
}
