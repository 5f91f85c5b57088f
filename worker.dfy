/** What one run of the download worker (`process_queue`) writes to the
    log, given what the download library does for each queue item. */
module Worker {
  import opened Wrappers
  import opened Messages

  /** One call the library makes back into the application while it fetches
      an item: a progress dictionary for `my_hook`, or a message for one of
      the `MyLogger` methods. */
  datatype LibraryEvent = Progress(d: ProgressEvent) | Logged(level: Level, msg: string)

  /** What downloading one item amounts to, as far as the application can
      see: the callbacks in the order the library makes them, then either a
      normal return (`raised == None`) or an exception with its text. */
  datatype Fetch = Fetch(events: seq<LibraryEvent>, raised: Option<string>)

  /** The line one callback logs, if any: the hook's line for a progress
      event, the logger's for a message; never a start, mode or closing
      line. */
  function EventLine(e: LibraryEvent, merge: bool): (r: Option<Line>)
    ensures r.Some? ==> IsCallbackLine(r.value)
  {
    match e
    case Progress(d) => HookLine(d, merge)
    case Logged(level, msg) => LoggerLine(level, msg)
  }

  /** The lines the callbacks of one download log, in callback order; a
      callback logs at most one line, and only callback lines. */
  function EventLines(events: seq<LibraryEvent>, merge: bool): (r: seq<Line>)
    ensures |r| <= |events|
    ensures forall k :: 0 <= k < |r| ==> IsCallbackLine(r[k])
  {
    if events == [] then []
    else
      var last := events[|events| - 1];
      var front := EventLines(events[..|events| - 1], merge);
      match EventLine(last, merge)
      case Some(line) => front + [line]
      case None => front
  }

  /** The lines of two runs of callbacks are those of the first followed by
      those of the second: lines are logged in callback order. */
  lemma {:induction false} EventLinesAppend(a: seq<LibraryEvent>, b: seq<LibraryEvent>, merge: bool)
    ensures EventLines(a + b, merge) == EventLines(a, merge) + EventLines(b, merge)
  {
    if b == [] {
      assert a + b == a;
    } else {
      var n := |b| - 1;
      var ab := a + b;
      assert ab[..|ab| - 1] == a + b[..n] && ab[|ab| - 1] == b[n];
      EventLinesAppend(a, b[..n], merge);
      match EventLine(b[n], merge)
      case Some(line) =>
        assert EventLines(ab, merge) == EventLines(a, merge) + EventLines(b[..n], merge) + [line];
      case None =>
    }
  }

  /** Every line the callbacks log is the line of one of the callbacks. */
  lemma {:induction false} EventLinesFromEvents(events: seq<LibraryEvent>, merge: bool, line: Line)
    requires line in EventLines(events, merge)
    ensures exists e :: e in events && EventLine(e, merge) == Some(line)
  {
    var n := |events| - 1;
    var front := EventLines(events[..n], merge);
    if line in front {
      EventLinesFromEvents(events[..n], merge, line);
      var e :| e in events[..n] && EventLine(e, merge) == Some(line);
      assert e in events;
    } else {
      assert EventLine(events[n], merge) == Some(line);
    }
  }

  /** The line that closes an item: finished when the library returned,
      the exception text when it raised. */
  function OutcomeLine(url: string, f: Fetch): (r: Line)
    ensures r == Finished(url) <==> f.raised.None?
    ensures f.raised.Some? ==> r == Unexpected(f.raised.value)
    ensures !IsCallbackLine(r)
  {
    match f.raised
    case None => Finished(url)
    case Some(text) => Unexpected(text)
  }

  /** Everything logged for one item: the start line, the mode line, the
      callbacks' lines and the closing line; at least three lines, opening
      with the start line and the mode line. */
  function ItemLines(url: string, merge: bool, f: Fetch): (r: seq<Line>)
    ensures |r| >= 3 && r[0] == Starting(url) && r[1] == ModeLine(merge)
  {
    [Starting(url), ModeLine(merge)] + EventLines(f.events, merge) + [OutcomeLine(url, f)]
  }

  /** An item's lines close with its closing line, one line per logged
      callback before it; between the mode line and the closing line come
      only callback lines, so the item's lines include its finish line
      exactly when its download did not raise. Its mode line reads as the
      mode chosen. */
  lemma {:induction false} ItemLinesShape(url: string, merge: bool, f: Fetch)
    ensures var r := ItemLines(url, merge, f);
      |r| == |EventLines(f.events, merge)| + 3 && r[|r| - 1] == OutcomeLine(url, f)
      && (forall k :: 2 <= k < |r| - 1 ==> IsCallbackLine(r[k]))
      && (Finished(url) in r <==> f.raised.None?)
      && r[1].Text() == (if merge then MergeModeText else SplitModeText)
  {
    var r := ItemLines(url, merge, f);
    assert r[2..|r| - 1] == EventLines(f.events, merge);
    if Finished(url) in r {
      var k :| 0 <= k < |r| && r[k] == Finished(url);
      assert k == |r| - 1;
    }
  }

  /** The blocks concatenated in order. */
  function Flatten<T>(blocks: seq<seq<T>>): seq<T> {
    if blocks == [] then [] else Flatten(blocks[..|blocks| - 1]) + blocks[|blocks| - 1]
  }

  /** Flattening distributes over concatenation. */
  lemma {:induction false} FlattenAppend<T>(a: seq<seq<T>>, b: seq<seq<T>>)
    ensures Flatten(a + b) == Flatten(a) + Flatten(b)
  {
    if b == [] {
      assert a + b == a;
    } else {
      var n := |b| - 1;
      var ab := a + b;
      assert ab[..|ab| - 1] == a + b[..n] && ab[|ab| - 1] == b[n];
      FlattenAppend(a, b[..n]);
    }
  }

  /** One more block adds that block at the end. */
  lemma {:induction false} FlattenSnoc<T>(blocks: seq<seq<T>>, i: nat)
    requires i < |blocks|
    ensures Flatten(blocks[..i + 1]) == Flatten(blocks[..i]) + blocks[i]
  {
    assert blocks[..i + 1][..i] == blocks[..i];
  }

  /** Block `i` appears whole between the blocks before it and the blocks
      after it. */
  lemma {:induction false} FlattenAround<T>(blocks: seq<seq<T>>, i: nat)
    requires i < |blocks|
    ensures Flatten(blocks) == Flatten(blocks[..i]) + blocks[i] + Flatten(blocks[i + 1..])
  {
    var front, rest := blocks[..i + 1], blocks[i + 1..];
    assert blocks == front + rest;
    FlattenAppend(front, rest);
    assert front[..i] == blocks[..i];
  }

  /** The lines of each item, item `i` being fetched with outcome
      `fetches[i]`. */
  function ItemBlocks(urls: seq<string>, merge: bool, fetches: seq<Fetch>): (r: seq<seq<Line>>)
    requires |urls| == |fetches|
    ensures |r| == |urls|
    ensures forall i :: 0 <= i < |urls| ==> r[i] == ItemLines(urls[i], merge, fetches[i])
  {
    if urls == [] then []
    else
      var n := |urls| - 1;
      ItemBlocks(urls[..n], merge, fetches[..n]) + [ItemLines(urls[n], merge, fetches[n])]
  }

  /** Everything logged by a run over `urls`: the items' lines, item after
      item. */
  function RunLines(urls: seq<string>, merge: bool, fetches: seq<Fetch>): seq<Line>
    requires |urls| == |fetches|
  {
    Flatten(ItemBlocks(urls, merge, fetches))
  }

  /** The blocks of the first `i` items are the first `i` blocks. */
  lemma {:induction false} ItemBlocksPrefix(urls: seq<string>, merge: bool, fetches: seq<Fetch>, i: nat)
    requires |urls| == |fetches| && i <= |urls|
    ensures ItemBlocks(urls[..i], merge, fetches[..i]) == ItemBlocks(urls, merge, fetches)[..i]
  {
  }

  /** The blocks of the items from `i` on are the blocks from `i` on. */
  lemma {:induction false} ItemBlocksSuffix(urls: seq<string>, merge: bool, fetches: seq<Fetch>, i: nat)
    requires |urls| == |fetches| && i <= |urls|
    ensures ItemBlocks(urls[i..], merge, fetches[i..]) == ItemBlocks(urls, merge, fetches)[i..]
  {
  }

  /** Running over one more item logs that item's lines after the rest. */
  lemma {:induction false} RunLinesSnoc(urls: seq<string>, merge: bool, fetches: seq<Fetch>, i: nat)
    requires |urls| == |fetches| && i < |urls|
    ensures RunLines(urls[..i + 1], merge, fetches[..i + 1])
         == RunLines(urls[..i], merge, fetches[..i]) + ItemLines(urls[i], merge, fetches[i])
  {
    var blocks := ItemBlocks(urls[..i + 1], merge, fetches[..i + 1]);
    assert blocks[..i] == ItemBlocks(urls[..i], merge, fetches[..i]);
  }

  /** Every item's lines appear whole, in queue order, whatever the items
      before it did: an item whose download raised does not cut the run
      short. */
  lemma {:induction false} ItemBlockIntact(urls: seq<string>, merge: bool, fetches: seq<Fetch>, i: nat)
    requires |urls| == |fetches| && i < |urls|
    ensures RunLines(urls, merge, fetches)
         == RunLines(urls[..i], merge, fetches[..i])
          + ItemLines(urls[i], merge, fetches[i])
          + RunLines(urls[i + 1..], merge, fetches[i + 1..])
  {
    FlattenAround(ItemBlocks(urls, merge, fetches), i);
    ItemBlocksPrefix(urls, merge, fetches, i);
    ItemBlocksSuffix(urls, merge, fetches, i + 1);
  }

  /** Item `i`'s lines occupy the positions `s` to `e` of the run, right
      after the lines of the items before it: its start line and mode line
      come first, and its closing line last, which is its finish line when
      its download returned and the exception's line when it raised. Its
      finish line is among its lines exactly when its download did not
      raise. */
  lemma {:induction false} EveryItemLogged(urls: seq<string>, merge: bool, fetches: seq<Fetch>, i: nat)
    requires |urls| == |fetches| && i < |urls|
    ensures var run := RunLines(urls, merge, fetches);
      var s := |RunLines(urls[..i], merge, fetches[..i])|;
      var e := s + |ItemLines(urls[i], merge, fetches[i])| - 1;
      s + 1 < e < |run| && run[s] == Starting(urls[i]) && run[s + 1] == ModeLine(merge)
      && (fetches[i].raised.None? ==> run[e] == Finished(urls[i]))
      && (fetches[i].raised.Some? ==> run[e] == Unexpected(fetches[i].raised.value))
      && (Finished(urls[i]) in run[s..e + 1] <==> fetches[i].raised.None?)
  {
    ItemBlockIntact(urls, merge, fetches, i);
    ItemLinesShape(urls[i], merge, fetches[i]);
    var run := RunLines(urls, merge, fetches);
    var before := RunLines(urls[..i], merge, fetches[..i]);
    var item := ItemLines(urls[i], merge, fetches[i]);
    var s, e := |before|, |before| + |item| - 1;
    assert run[s..e + 1] == item;
  }

  /** A run logs at least three lines per item. */
  lemma {:induction false} RunLinesLength(urls: seq<string>, merge: bool, fetches: seq<Fetch>)
    requires |urls| == |fetches|
    ensures |RunLines(urls, merge, fetches)| >= 3 * |urls|
  {
    if urls != [] {
      var n := |urls| - 1;
      RunLinesLength(urls[..n], merge, fetches[..n]);
      RunLinesSnoc(urls, merge, fetches, n);
      assert urls[..n + 1] == urls && fetches[..n + 1] == fetches;
    }
  }
}
