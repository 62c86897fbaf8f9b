/**
 Packing the friends list into WATCH or MONITOR lines.
 */
module WatchPacking {
  import P = ModePacking

  const BUDGET: nat := 500
  const BUFFER: nat := 512
  const NICK_MAX: nat := 63

  datatype Flavor = Monitor | Watch

  function Prefix(f: Flavor): string {
    if f == Monitor then "MONITOR + " else "WATCH"
  }

  function Separator(f: Flavor): string {
    if f == Monitor then "," else " +"
  }

  /** A name with its separator. */
  function Cost(f: Flavor, name: string): nat {
    |name| + |Separator(f)|
  }

  function Costs(f: Flavor, names: seq<string>): nat {
    if names == [] then 0 else Cost(f, names[0]) + Costs(f, names[1..])
  }

  /** g_strlcat into the line buffer: what does not fit is cut off. */
  function Cat(s: string, t: string): string {
    if |s + t| < BUFFER then s + t else if |s| < BUFFER then (s + t)[..BUFFER - 1] else s
  }

  function CatAll(f: Flavor, s: string, names: seq<string>): string
    decreases |names|
  {
    if names == [] then s else CatAll(f, Cat(Cat(s, Separator(f)), names[0]), names[1..])
  }

  /** The groups sent, with `held` the names kept back since the last one. */
  function Groups(f: Flavor, held: seq<string>, len: nat, names: seq<string>): seq<seq<string>>
    decreases |names|
  {
    if names == [] then (if len != 0 then [held] else [])
    else
      var c := Cost(f, names[0]);
      if len + c > BUDGET then [held] + Groups(f, [names[0]], c, names[1..])
      else Groups(f, held + [names[0]], len + c, names[1..])
  }

  function Lines(f: Flavor, groups: seq<seq<string>>): seq<string> {
    if groups == [] then [] else [CatAll(f, Prefix(f), groups[0])] + Lines(f, groups[1..])
  }

  /** notify_flush_watches: the names from one list position up to another. */
  method FlushWatches(f: Flavor, names: seq<string>, from: nat, end: nat) returns (tbuf: string)
    requires from <= end <= |names|
    ensures tbuf == CatAll(f, Prefix(f), names[from..end])
  {
    hide Cat;
    tbuf := Prefix(f);
    ghost var group := names[from..end];
    var i := from;
    while i != end
      invariant from <= i <= end
      invariant CatAll(f, Prefix(f), group) == CatAll(f, tbuf, group[i - from..])
    {
      assert group[i - from..][0] == names[i] && group[i - from..][1..] == group[i + 1 - from..];
      tbuf := Cat(tbuf, Separator(f));
      tbuf := Cat(tbuf, names[i]);
      i := i + 1;
    }
    assert group[end - from..] == [];
  }

  /** notify_send_watches, on the names kept for this network. */
  method SendWatches(f: Flavor, names: seq<string>) returns (sent: seq<string>)
    ensures sent == Lines(f, Groups(f, [], 0, names))
  {
    hide CatAll;
    sent := [];
    var len: nat, point, i := 0, 0, 0;
    while i < |names|
      invariant 0 <= point <= i <= |names|
      invariant Lines(f, Groups(f, [], 0, names)) == sent + Lines(f, Groups(f, names[point..i], len, names[i..]))
    {
      assert names[i..][0] == names[i] && names[i..][1..] == names[i + 1..];
      len := len + Cost(f, names[i]);
      if len > BUDGET {
        var line := FlushWatches(f, names, point, i);
        LinesStep(f, sent, names[point..i], Groups(f, [names[i]], Cost(f, names[i]), names[i + 1..]));
        sent := sent + [line];
        len := Cost(f, names[i]);
        point := i;
        assert names[point..i + 1] == [names[i]];
      } else {
        assert names[point..i + 1] == names[point..i] + [names[i]];
      }
      i := i + 1;
    }
    assert names[i..] == [];
    if len != 0 {
      var line := FlushWatches(f, names, point, |names|);
      LinesStep(f, sent, names[point..i], []);
      sent := sent + [line];
    }
    assert Lines(f, []) == [] && sent + [] == sent;
  }

  lemma LinesStep(f: Flavor, sent: seq<string>, group: seq<string>, rest: seq<seq<string>>)
    ensures sent + Lines(f, [group] + rest) == sent + [CatAll(f, Prefix(f), group)] + Lines(f, rest)
  {
    hide CatAll;
    assert ([group] + rest)[1..] == rest;
  }

  /** Every name goes out once, in the order of the list. */
  lemma {:induction false} NothingLost(f: Flavor, held: seq<string>, len: nat, names: seq<string>)
    requires len == 0 ==> held == []
    ensures P.Concat(Groups(f, held, len, names)) == held + names
    decreases |names|
  {
    if names == [] {
      assert [held][1..] == [] && P.Concat([]) == [];
    } else {
      var c := Cost(f, names[0]);
      assert [names[0]] + names[1..] == names;
      if len + c > BUDGET {
        NothingLost(f, [names[0]], c, names[1..]);
        var rest := Groups(f, [names[0]], c, names[1..]);
        assert ([held] + rest)[1..] == rest;
      } else {
        NothingLost(f, held + [names[0]], len + c, names[1..]);
        assert held + [names[0]] + names[1..] == held + names;
      }
    }
  }

  lemma {:induction false} CostsAppend(f: Flavor, names: seq<string>, name: string)
    ensures Costs(f, names + [name]) == Costs(f, names) + Cost(f, name)
  {
    if names == [] {
      assert names + [name] == [name];
    } else {
      assert (names + [name])[1..] == names[1..] + [name];
      CostsAppend(f, names[1..], name);
    }
  }

  /** No group costs more than the budget when no single name does. */
  lemma {:induction false} GroupsWithinBudget(f: Flavor, held: seq<string>, len: nat, names: seq<string>)
    requires len == Costs(f, held) <= BUDGET && forall name <- names :: Cost(f, name) <= BUDGET
    ensures forall g <- Groups(f, held, len, names) :: Costs(f, g) <= BUDGET
    decreases |names|
  {
    if names != [] {
      assert names[0] in names && forall name <- names[1..] :: name in names;
      var c := Cost(f, names[0]);
      CostsAppend(f, held, names[0]);
      assert Costs(f, [names[0]]) == c by {
        assert [names[0]][1..] == [];
      }
      if len + c > BUDGET {
        GroupsWithinBudget(f, [names[0]], c, names[1..]);
      } else {
        GroupsWithinBudget(f, held + [names[0]], len + c, names[1..]);
      }
    }
  }

  /** The line as it should be, without a buffer to cut it. */
  function Whole(f: Flavor, s: string, names: seq<string>): string
    decreases |names|
  {
    if names == [] then s else Whole(f, s + Separator(f) + names[0], names[1..])
  }

  lemma {:induction false} CatIsWhole(f: Flavor, s: string, names: seq<string>)
    requires |s| + Costs(f, names) < BUFFER
    ensures CatAll(f, s, names) == Whole(f, s, names) && |Whole(f, s, names)| == |s| + Costs(f, names)
    decreases |names|
  {
    if names != [] {
      CatIsWhole(f, s + Separator(f) + names[0], names[1..]);
    }
  }

  /** For names within the nick limit no line is cut, and each is at most 510
      bytes before its line end. */
  lemma NoLineTruncated(f: Flavor, names: seq<string>)
    requires forall name <- names :: |name| <= NICK_MAX
    ensures forall g <- Groups(f, [], 0, names) ::
      CatAll(f, Prefix(f), g) == Whole(f, Prefix(f), g) && |CatAll(f, Prefix(f), g)| <= 510
  {
    GroupsWithinBudget(f, [], 0, names);
    forall g <- Groups(f, [], 0, names)
      ensures CatAll(f, Prefix(f), g) == Whole(f, Prefix(f), g) && |CatAll(f, Prefix(f), g)| <= 510
    {
      CatIsWhole(f, Prefix(f), g);
    }
  }

  lemma {:induction false} HeldGroupsNotEmpty(f: Flavor, held: seq<string>, len: nat, names: seq<string>)
    requires held != []
    ensures [] !in Groups(f, held, len, names)
    decreases |names|
  {
    if names != [] {
      var c := Cost(f, names[0]);
      HeldGroupsNotEmpty(f, [names[0]], c, names[1..]);
      HeldGroupsNotEmpty(f, held + [names[0]], len + c, names[1..]);
    }
  }

  /** A line without any name goes out exactly when the first name alone is
      over the budget. */
  lemma EmptyLineIff(f: Flavor, names: seq<string>)
    ensures [] in Groups(f, [], 0, names) <==> names != [] && Cost(f, names[0]) > BUDGET
  {
    if names != [] {
      var c := Cost(f, names[0]);
      HeldGroupsNotEmpty(f, [names[0]], c, names[1..]);
      assert [] + [names[0]] == [names[0]];
      if c > BUDGET {
        assert Groups(f, [], 0, names)[0] == [];
      }
    }
  }
}
