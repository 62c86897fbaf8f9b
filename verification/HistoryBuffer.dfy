/** The ring in the program's own form. */
module HistoryBuffer {
  import opened Wrappers
  import opened HistoryRing

  class History {
    const lines: array<Option<string>>
    var pos: nat
    var realpos: nat

    ghost predicate Ok()
      reads this, lines
    {
      lines.Length == SIZE && Valid(View())
    }

    ghost function View(): Ring
      reads this, lines
    {
      Ring(lines[..], pos, realpos)
    }

    constructor ()
      ensures Ok() && fresh(lines) && Represents(View(), Listing([], 0))
    {
      lines := new Option<string>[SIZE](_ => None);
      pos := 0;
      realpos := 0;
      new;
      assert lines[..] == Blank().lines;
      BlankRepresentsNothing();
    }

    /** history_add. */
    method Add(text: string)
      requires Ok()
      modifies this, lines
      ensures Ok() && View() == RingAdd(old(View()), text)
    {
      lines[realpos] := Some(text);
      realpos := realpos + 1;
      if realpos == SIZE {
        realpos := 0;
      }
      pos := realpos;
    }

    /** history_down. */
    method Down() returns (shown: Option<string>)
      requires Ok()
      modifies this
      ensures Ok() && (View(), shown) == RingDown(old(View()))
    {
      if pos == realpos {
        return None;
      }
      if realpos == 0 {
        if pos == SIZE - 1 {
          pos := 0;
          return Some("");
        }
      } else {
        if pos == realpos - 1 {
          pos := pos + 1;
          return Some("");
        }
      }
      var next := 0;
      if pos < SIZE - 1 {
        next := pos + 1;
      }
      if lines[next].Some? {
        pos := next;
        return lines[pos];
      }
      return None;
    }

    /** history_up.  A null slot under the browsing position only occurs on the
        write position, so the second of the three comparisons never meets one. */
    method Up(currentText: string) returns (shown: Option<string>)
      requires Ok() && (lines[pos].None? ==> pos == realpos)
      modifies this, lines
      ensures Ok() && (View(), shown) == RingUp(old(View()), currentText)
    {
      if realpos == SIZE - 1 {
        if pos == 0 {
          return None;
        }
      } else {
        if pos == realpos + 1 {
          return None;
        }
      }
      var next := SIZE - 1;
      if pos != 0 {
        next := pos - 1;
      }
      if lines[next].None? {
        return None;
      }
      if currentText != "" && currentText != lines[next].value &&
         (lines[pos].None? || currentText != lines[pos].value) &&
         (lines[realpos].None? || currentText != lines[pos].value) {
        Add(currentText);
      }
      pos := next;
      return lines[pos];
    }
  }
}
