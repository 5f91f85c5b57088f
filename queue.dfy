/** What the queue edits of the application do to the list of URLs and to
    the listbox selection, as functions of their inputs. */
module QueueModel {
  import opened Wrappers
  import opened Strings

  /** The hint shown in the empty URL box; adding it queues nothing. It is
      the one literal "Paste one or more YouTube URLs or playlist URLs
      here...", written in three adjacent pieces so that the verifier can
      read it piece by piece. */
  const Placeholder := "Paste one or more " + "YouTube URLs or playlist " + "URLs here..."

  /** The selection is empty or names an existing row. */
  predicate ValidSelection(q: seq<string>, sel: Option<nat>) {
    sel.Some? ==> sel.value < |q|
  }

  /** A queue item as `add_to_queue` produces it: non-empty, no surrounding
      whitespace, a single line. */
  predicate IsCleanItem(x: string) {
    x != [] && IsTrimmed(x) && '\n' !in x
  }

  /** What one line of the URL box contributes: the line stripped, unless
      that leaves nothing. */
  function KeepLine(line: string): (r: seq<string>)
    ensures |r| <= 1
    ensures Strip(line) == [] ==> r == []
    ensures Strip(line) != [] ==> r == [Strip(line)]
    ensures forall i :: 0 <= i < |r| ==> r[i] != [] && IsTrimmed(r[i]) && ('\n' !in line ==> '\n' !in r[i])
  {
    var url := Strip(line);
    StripWithin(line);
    if url != [] then [url] else []
  }

  /** The lines `add_to_queue` keeps, in their order: each non-blank line,
      stripped. Every kept line is non-empty and stripped, and no more lines
      are kept than were given. */
  function Kept(lines: seq<string>): (r: seq<string>)
    ensures |r| <= |lines|
    ensures forall i :: 0 <= i < |r| ==> r[i] != [] && IsTrimmed(r[i])
  {
    if lines == [] then [] else Kept(lines[..|lines| - 1]) + KeepLine(lines[|lines| - 1])
  }

  /** Keeping one more line adds what that line contributes. */
  lemma {:induction false} KeptSnoc(lines: seq<string>, i: nat)
    requires i < |lines|
    ensures Kept(lines[..i + 1]) == Kept(lines[..i]) + KeepLine(lines[i])
  {
    assert lines[..i + 1][..i] == lines[..i];
  }

  /** Lines without a newline of their own are kept as single lines. */
  lemma {:induction false} KeptSingleLines(lines: seq<string>)
    requires forall j :: 0 <= j < |lines| ==> '\n' !in lines[j]
    ensures forall i :: 0 <= i < |Kept(lines)| ==> '\n' !in Kept(lines)[i]
  {
    if lines != [] {
      var n := |lines| - 1;
      KeptSingleLines(lines[..n]);
      assert Kept(lines) == Kept(lines[..n]) + KeepLine(lines[n]);
    }
  }

  /** The hint is a single line. */
  lemma PlaceholderIsOneLine()
    ensures '\n' !in Placeholder
  {
    assert '\n' !in "Paste one or more ";
    assert '\n' !in "YouTube URLs or playlist ";
    assert '\n' !in "URLs here...";
  }

  /** The items `add_to_queue` appends for the text of the URL box: every
      one non-empty, stripped and a single line; text that strips to the
      hint appends nothing. */
  function NewItems(text: string): (r: seq<string>)
    ensures Strip(text) == Placeholder ==> r == []
    ensures forall i :: 0 <= i < |r| ==> IsCleanItem(r[i])
  {
    var t := Strip(text);
    if t == Placeholder then []
    else
      KeptSingleLines(Split(t, '\n'));
      Kept(Split(t, '\n'))
  }

  /** Keeping lines distributes over concatenation. */
  lemma {:induction false} KeptAppend(a: seq<string>, b: seq<string>)
    ensures Kept(a + b) == Kept(a) + Kept(b)
  {
    if b == [] {
      assert a + b == a;
    } else {
      var n := |b| - 1;
      var ab := a + b;
      assert ab[..|ab| - 1] == a + b[..n] && ab[|ab| - 1] == b[n];
      calc {
        Kept(ab);
        Kept(a + b[..n]) + KeepLine(b[n]);
        { KeptAppend(a, b[..n]); }
        Kept(a) + Kept(b[..n]) + KeepLine(b[n]);
        { AppendAssoc(Kept(a), Kept(b[..n]), KeepLine(b[n])); }
        Kept(a) + Kept(b);
      }
    }
  }

  /** A line that is not blank, wherever it stands, adds its stripped text
      between what the lines before and after it add. */
  lemma {:induction false} NonBlankLineAddsItsStrip(before: seq<string>, line: string, after: seq<string>)
    requires Strip(line) != []
    ensures Kept(before + [line] + after) == Kept(before) + [Strip(line)] + Kept(after)
  {
    assert Kept([line]) == [Strip(line)] by {
      assert [line][..0] == [];
    }
    calc {
      Kept(before + [line] + after);
      { KeptAppend(before + [line], after); }
      Kept(before + [line]) + Kept(after);
      { KeptAppend(before, [line]); }
      Kept(before) + [Strip(line)] + Kept(after);
    }
  }

  /** A blank line, wherever it stands, adds nothing. */
  lemma {:induction false} BlankLineAddsNothing(before: seq<string>, blank: string, after: seq<string>)
    requires Strip(blank) == []
    ensures Kept(before + [blank] + after) == Kept(before + after)
  {
    assert Kept([blank]) == [] by {
      assert [blank][..0] == [];
    }
    calc {
      Kept(before + [blank] + after);
      { KeptAppend(before + [blank], after); }
      Kept(before + [blank]) + Kept(after);
      { KeptAppend(before, [blank]); assert Kept(before) + [] == Kept(before); }
      Kept(before) + Kept(after);
      { KeptAppend(before, after); }
      Kept(before + after);
    }
  }

  /** Lines that are already clean are all kept, unchanged and in order. */
  lemma {:induction false} KeptClean(lines: seq<string>)
    requires forall i :: 0 <= i < |lines| ==> lines[i] != [] && IsTrimmed(lines[i])
    ensures Kept(lines) == lines
  {
    if lines != [] {
      var n := |lines| - 1;
      KeptClean(lines[..n]);
      assert KeepLine(lines[n]) == [lines[n]];
      assert lines[..n] + [lines[n]] == lines;
    }
  }

  /** Lines joined by newlines end with the last line's last character. */
  lemma {:induction false} JoinLast(lines: seq<string>)
    requires |lines| >= 1 && lines[|lines| - 1] != []
    ensures var t := Join(lines, '\n');
      |t| > 0 && t[|t| - 1] == lines[|lines| - 1][|lines[|lines| - 1]| - 1]
  {
    if |lines| > 1 {
      JoinLast(lines[1..]);
    }
  }

  /** An empty URL box queues nothing. */
  lemma NothingFromEmptyText()
    ensures NewItems([]) == []
  {
    var lines: seq<string> := [[]];
    assert Strip([]) == [] && Split([], '\n') == lines;
    assert lines[..0] == [];
    assert KeepLine([]) == [];
  }

  /** Single lines whose first and last are clean, joined by newlines: the
      text is already stripped, so unless it is the hint each line is kept or
      dropped on its own. */
  lemma {:induction false} NewItemsOfJoined(lines: seq<string>)
    requires |lines| >= 1 && IsCleanItem(lines[0]) && IsCleanItem(lines[|lines| - 1])
    requires forall i :: 0 <= i < |lines| ==> '\n' !in lines[i]
    requires Join(lines, '\n') != Placeholder
    ensures NewItems(Join(lines, '\n')) == Kept(lines)
  {
    var t := Join(lines, '\n');
    assert IsTrimmed(t) by {
      JoinLast(lines);
      assert t[0] == lines[0][0];
    }
    assert Split(t, '\n') == lines by { SplitJoin(lines, '\n'); }
  }

  /** Pasting the queue's items back, one per line, queues the same items
      again: `add_to_queue` inverts joining clean items with newlines. */
  lemma {:induction false} ReaddRoundTrip(items: seq<string>)
    requires forall i :: 0 <= i < |items| ==> IsCleanItem(items[i])
    requires Join(items, '\n') != Placeholder
    ensures NewItems(Join(items, '\n')) == items
  {
    if items == [] {
      NothingFromEmptyText();
    } else {
      NewItemsOfJoined(items);
      KeptClean(items);
    }
  }

  /** Four lines joined with newlines, written out. */
  lemma {:induction false} JoinFour(a: string, b: string, c: string, d: string)
    ensures Join([a, b, c, d], '\n') == a + "\n" + b + "\n" + c + "\n" + d
  {
    var lines := [a, b, c, d];
    assert Join(lines[3..], '\n') == d;
    assert Join(lines[2..], '\n') == c + "\n" + d;
    assert Join(lines[1..], '\n') == b + "\n" + (c + "\n" + d);
  }

  /** Of three clean lines around a blank one, the three are kept. */
  lemma {:induction false} KeptAroundBlank(a: string, blank: string, b: string, c: string)
    requires IsCleanItem(a) && IsCleanItem(b) && IsCleanItem(c)
    requires Strip(blank) == []
    ensures Kept([a, blank, b, c]) == [a, b, c]
  {
    var kept := [a, b, c];
    KeptClean(kept);
    BlankLineAddsNothing([a], blank, [b, c]);
    assert [a] + [blank] + [b, c] == [a, blank, b, c] && [a] + [b, c] == kept;
  }

  /** Text with a line break is never the hint. */
  lemma {:induction false} MultiLineIsNotPlaceholder(t: string, k: nat)
    requires k < |t| && t[k] == '\n'
    ensures t != Placeholder
  {
    PlaceholderIsOneLine();
  }

  /** Three URLs around one blank line queue exactly those three URLs, in
      input order. */
  lemma {:induction false} ThreeLinesAndBlank(a: string, blank: string, b: string, c: string)
    requires IsCleanItem(a) && IsCleanItem(b) && IsCleanItem(c)
    requires Strip(blank) == [] && '\n' !in blank
    ensures NewItems(a + "\n" + blank + "\n" + b + "\n" + c) == [a, b, c]
  {
    var lines := [a, blank, b, c];
    JoinFour(a, blank, b, c);
    MultiLineIsNotPlaceholder(Join(lines, '\n'), |a|);
    NewItemsOfJoined(lines);
    KeptAroundBlank(a, blank, b, c);
  }

  /** The two buttons beside the queue: "Up" passes -1, "Down" passes 1. */
  datatype Direction = Up | Down {
    function Offset(): int {
      if Up? then -1 else 1
    }
    function Opposite(): Direction {
      if Up? then Down else Up
    }
  }

  /** `move_item` returns early: nothing is selected, or the selected row is
      already at the end it would move past. */
  predicate MoveIsNoop(q: seq<string>, sel: Option<nat>, d: Direction) {
    sel.None? || (d == Up && sel.value == 0) || (d == Down && sel.value == |q| - 1)
  }

  /** `move_item`: the selected row trades places with its neighbour in
      direction `d`, and the selection follows it. */
  function Move(q: seq<string>, sel: Option<nat>, d: Direction): (r: (seq<string>, Option<nat>))
    requires ValidSelection(q, sel)
    ensures ValidSelection(r.0, r.1)
    ensures |r.0| == |q| && multiset(r.0) == multiset(q)
    ensures MoveIsNoop(q, sel, d) ==> r == (q, sel)
    ensures !MoveIsNoop(q, sel, d) ==>
      var i, j := sel.value, sel.value + d.Offset();
      0 <= j < |q| && r.1 == Some(j) && r.0[j] == q[i] && r.0[i] == q[j]
      && forall k :: 0 <= k < |q| && k != i && k != j ==> r.0[k] == q[k]
  {
    if MoveIsNoop(q, sel, d) then (q, sel)
    else
      var i := sel.value;
      var j := i + d.Offset();
      (q[i := q[j]][j := q[i]], Some(j))
  }

  /** Moving a row and then moving it back restores queue and selection. */
  lemma {:induction false} MoveBack(q: seq<string>, sel: Option<nat>, d: Direction)
    requires ValidSelection(q, sel) && !MoveIsNoop(q, sel, d)
    ensures var (q', sel') := Move(q, sel, d);
      !MoveIsNoop(q', sel', d.Opposite()) && Move(q', sel', d.Opposite()) == (q, sel)
  {
    var i := sel.value;
    var j := i + d.Offset();
    var q' := q[i := q[j]][j := q[i]];
    assert Move(q, sel, d) == (q', Some(j));
    assert j + d.Opposite().Offset() == i;
    assert q'[j := q'[i]][i := q'[j]] == q;
  }

  /** `remove_item`: the selected row is deleted; nothing else changes. */
  function Removed(q: seq<string>, sel: Option<nat>): (r: seq<string>)
    requires ValidSelection(q, sel)
    ensures sel.None? ==> r == q
    ensures sel.Some? ==> |r| == |q| - 1 && r[..sel.value] + [q[sel.value]] + r[sel.value..] == q
    ensures sel.Some? ==> multiset(r) + multiset{q[sel.value]} == multiset(q)
  {
    match sel
    case None => q
    case Some(i) =>
      assert q == q[..i] + [q[i]] + q[i + 1..];
      q[..i] + q[i + 1..]
  }

  /** Removing a row keeps the relative order of the others: row `k` moves
      up by one exactly when it was below the removed row. */
  lemma {:induction false} RemovedKeepsOrder(q: seq<string>, i: nat, k: nat)
    requires i < |q| && k < |q| - 1
    ensures Removed(q, Some(i))[k] == if k < i then q[k] else q[k + 1]
  {
    assert Removed(q, Some(i)) == q[..i] + q[i + 1..];
  }
}
