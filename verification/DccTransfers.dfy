/** The transfer list in the program's own form: methods on the list and the
    global sums, proved equal to the functions of `DccSums`. */
module DccTransfers {
  import opened Wrappers
  import opened S = DccSums

  class DccTable {
    var list: seq<Dcc>
    var sendSum: int
    var getSum: int
    var sendThrottle: bool
    var getThrottle: bool

    ghost function View(): Table
      reads this
    {
      Table(list, sendSum, getSum, sendThrottle, getThrottle)
    }

    constructor ()
      ensures Nothing(View())
    {
      list := [];
      sendSum, getSum := 0, 0;
      sendThrottle, getThrottle := false, false;
    }

    /** The measurement of dcc_calc_cps. */
    method Sample(i: nat, rate: int)
      requires i < |list|
      modifies this
      ensures View() == S.Sample(old(View()), i, rate)
    {
      var d := list[i];
      if !d.sampled {
        list := list[i := d.(sampled := true)];
        return;
      }
      var oldCps := d.cps;
      if d.kind == Send {
        sendSum := sendSum + (rate - oldCps);
      } else {
        getSum := getSum + (rate - oldCps);
      }
      list := list[i := d.(cps := rate)];
    }

    /** The limits of dcc_calc_cps. */
    method TestLimits(i: nat, prefs: Prefs)
      requires i < |list|
      modifies this
      ensures View() == S.TestLimits(old(View()), i, prefs)
    {
      var d := list[i];
      var limit := if d.kind == Send then prefs.sendLimit else prefs.getLimit;
      var sum := if d.kind == Send then sendSum else getSum;
      d := d.(globalThrottle := false);
      var over := limit > 0 && sum >= limit;
      if over && d.maxcps >= 0 {
        d := d.(globalThrottle := true);
      }
      if d.kind == Send {
        sendThrottle := over;
      } else {
        getThrottle := over;
      }
      d := d.(ownThrottle := d.maxcps > 0 && d.cps > d.maxcps);
      list := list[i := d];
    }

    /** dcc_calc_cps. */
    method CalcCps(i: nat, prefs: Prefs, r: Reading)
      requires i < |list|
      modifies this
      ensures View() == S.CalcCps(old(View()), i, prefs, r)
    {
      hide S.Close;
      var wasThrottled := Throttled(list[i]);
      KeepsLength(View(), i, prefs, r.rate);
      Sample(i, r.rate);
      TestLimits(i, prefs);
      if wasThrottled && !Throttled(list[i]) && r.woken.Some? {
        Close(i, r.woken.value.0, false, Some(r.woken.value.1));
      }
    }

    /** dcc_remove_from_sum. */
    method RemoveFromSum(d: Dcc)
      modifies `sendSum, `getSum
      ensures View() == S.RemoveFromSum(old(View()), d)
    {
      if d.status != Active {
        return;
      }
      if d.kind == Send {
        sendSum := sendSum - d.cps;
      } else if d.kind == Recv {
        getSum := getSum - d.cps;
      }
    }

    /** dcc_close, and dcc_calc_average_cps where it follows. */
    method Close(i: nat, status: Status, destroy: bool, average: Option<int>)
      requires i < |list|
      modifies this
      ensures View() == S.Close(old(View()), i, status, destroy, average)
    {
      hide S.RemoveFromSum;
      var d := list[i];
      RemoveFromSum(d);
      d := d.(status := status);
      if destroy {
        list := list[..i] + list[i + 1..];
        return;
      }
      if average.Some? {
        d := d.(cps := average.value);
      }
      list := list[i := d];
    }

    /** One turn of dcc_check_timeouts. */
    method CheckOne(i: nat, prefs: Prefs, r: Reading) returns (gone: bool)
      requires i < |list|
      modifies this
      ensures (View(), gone) == S.CheckOne(old(View()), i, prefs, r)
    {
      hide S.Close, S.CalcCps;
      var d := list[i];
      gone := false;
      match d.status {
        case Active =>
          CalcCps(i, prefs, r);
          if d.kind == Send || d.kind == Recv {
            if r.stalled && !Throttled(list[i]) {
              Close(i, Aborted, false, None);
            }
          }
        case Queued =>
          if d.kind == Send || d.kind == ChatSend {
            if r.expired {
              Close(i, Aborted, false, None);
            }
          }
        case Connecting =>
        case _ =>
          if prefs.remove {
            Close(i, Queued, true, None);
            gone := true;
          }
      }
    }

    /** dcc_check_timeouts: a removed transfer's place is taken by the next one. */
    method CheckTimeouts(prefs: Prefs, readings: nat -> Reading)
      modifies this
      ensures View() == CheckFrom(old(View()), 0, prefs, readings)
    {
      hide S.CheckOne;
      var i := 0;
      while i < |list|
        invariant i <= |list|
        invariant CheckFrom(View(), i, prefs, readings) == CheckFrom(old(View()), 0, prefs, readings)
        decreases |list| - i
      {
        CheckOneLength(View(), i, prefs, readings(list[i].id));
        var gone := CheckOne(i, prefs, readings(list[i].id));
        if !gone {
          i := i + 1;
        }
      }
    }
  }

  lemma KeepsLength(t: Table, i: nat, prefs: Prefs, rate: int)
    requires i < |t.list|
    ensures |S.Sample(t, i, rate).list| == |t.list| == |S.TestLimits(S.Sample(t, i, rate), i, prefs).list|
  {
  }
}
