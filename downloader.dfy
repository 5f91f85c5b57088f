/** The download-queue controller of the application window: the queue of
    URLs with its selection, the settings a download uses, the start gate,
    the worker loop and the log FIFO with the text it is drained into. */
module Downloader {
  import opened Wrappers
  import opened Strings
  import opened QueueModel
  import opened Messages
  import opened Options
  import opened Worker
  import opened LogSink

  /** How a press of "Start Download" ends: refused because a run is under
      way, refused for want of a cookie file, refused because the queue is
      empty, or a run is started. */
  datatype StartResult = Busy | NoCookie | EmptyQueue | Started

  /** The checks of `start_download_thread`, in the order it makes them. */
  function StartGate(isDownloading: bool, cookiePath: string, queueSize: nat): (r: StartResult)
    ensures r == Busy <==> isDownloading
    ensures r == NoCookie <==> !isDownloading && cookiePath == []
    ensures r == EmptyQueue <==> !isDownloading && cookiePath != [] && queueSize == 0
    ensures r == Started <==> !isDownloading && cookiePath != [] && queueSize > 0
  {
    if isDownloading then Busy
    else if cookiePath == [] then NoCookie
    else if queueSize == 0 then EmptyQueue
    else Started
  }

  /** Appending an item's lines piece by piece appends them all. */
  lemma {:induction false} ItemLinesAfter(before: seq<Line>, url: string, merge: bool, f: Fetch)
    ensures before + [Starting(url), ModeLine(merge)] + EventLines(f.events, merge) + [OutcomeLine(url, f)]
         == before + ItemLines(url, merge, f)
  {
  }

  /** One call to the download library: the URL and the options it is
      given. */
  datatype FetchCall = FetchCall(url: string, options: YdlOptions)

  /** The calls a run over `items` makes when every item is fetched with
      `options`: one per item, in queue order. */
  function CallsFor(items: seq<string>, options: YdlOptions): (r: seq<FetchCall>)
    ensures |r| == |items|
    ensures forall k :: 0 <= k < |r| ==> r[k] == FetchCall(items[k], options)
  {
    if items == [] then []
    else CallsFor(items[..|items| - 1], options) + [FetchCall(items[|items| - 1], options)]
  }

  /** One more item adds its call at the end. */
  lemma {:induction false} CallsForSnoc(items: seq<string>, options: YdlOptions, i: nat)
    requires i < |items|
    ensures CallsFor(items[..i + 1], options) == CallsFor(items[..i], options) + [FetchCall(items[i], options)]
  {
    assert items[..i + 1][..i] == items[..i];
  }

  class App {
    /** The rows of the queue listbox, top to bottom. */
    var queue: seq<string>
    /** The selected row of the listbox, if any. */
    var selection: Option<nat>
    var isDownloading: bool
    var cookiePath: string
    var downloadPath: string
    /** The "Merge video and audio" checkbox. */
    var merge: bool
    /** Messages put on the log FIFO and not yet drained. */
    var logQueue: seq<Line>
    /** The text of the log window. */
    var logText: string

    predicate Valid()
      reads this
    {
      ValidSelection(queue, selection)
    }

    /** A fresh window: empty queue, no cookie file, the "Downloads" folder
        of the user's home directory `home`, split mode, empty log. */
    constructor(home: string)
      ensures Valid()
      ensures queue == [] && selection == None && !isDownloading && !merge
      ensures cookiePath == [] && downloadPath == PathJoin(home, "Downloads")
      ensures logQueue == [] && logText == []
    {
      queue := [];
      selection := None;
      isDownloading := false;
      cookiePath := [];
      downloadPath := PathJoin(home, "Downloads");
      merge := false;
      logQueue := [];
      logText := [];
    }

    /** The user clicks row `i` of the queue. */
    method Select(i: nat)
      requires i < |queue|
      modifies this`selection
      ensures Valid() && selection == Some(i)
    {
      selection := Some(i);
    }

    /** The user ticks or clears the merge checkbox. */
    method SetMerge(b: bool)
      modifies this`merge
      ensures merge == b
    {
      merge := b;
    }

    /** `add_to_queue` for the text of the URL box: each non-blank line,
        stripped, is appended in turn; the hint text appends nothing. */
    method AddToQueue(text: string)
      requires Valid()
      modifies this`queue
      ensures Valid()
      ensures queue == old(queue) + NewItems(text)
    {
      var content := Strip(text);
      if content == Placeholder {
        return;
      }
      AddLines(Split(content, '\n'));
    }

    /** The loop of `add_to_queue`: each line, stripped, is inserted at the
        end of the list unless that leaves nothing. */
    method AddLines(urls: seq<string>)
      modifies this`queue
      ensures queue == old(queue) + Kept(urls)
    {
      var i := 0;
      while i < |urls|
        invariant 0 <= i <= |urls|
        invariant queue == old(queue) + Kept(urls[..i])
      {
        ghost var before := queue;
        var url := Strip(urls[i]);
        if url != [] {
          queue := queue + [url];
        }
        assert queue == old(queue) + Kept(urls[..i + 1]) by {
          KeptSnoc(urls, i);
          AppendAssoc(old(queue), Kept(urls[..i]), KeepLine(urls[i]));
          assert queue == before + KeepLine(urls[i]);
        }
        i := i + 1;
      }
      assert urls[..|urls|] == urls;
    }

    /** `move_item`: the selected row is taken out and put back one place
        up or down, and selected again there. */
    method MoveItem(d: Direction)
      requires Valid()
      modifies this`queue, this`selection
      ensures Valid()
      ensures (queue, selection) == Move(old(queue), old(selection), d)
    {
      if selection.None? {
        return;
      }
      var idx := selection.value;
      if (d == Up && idx == 0) || (d == Down && idx == |queue| - 1) {
        return;
      }
      ghost var q := queue;
      var text := queue[idx];
      queue := queue[..idx] + queue[idx + 1..];
      selection := None;
      var j := idx + d.Offset();
      queue := queue[..j] + [text] + queue[j..];
      selection := Some(j);
      assert queue == q[idx := q[j]][j := q[idx]];
    }

    /** `remove_item`: the selected row, if any, is deleted, and with it the
        selection. */
    method RemoveItem()
      requires Valid()
      modifies this`queue, this`selection
      ensures Valid()
      ensures queue == Removed(old(queue), old(selection)) && selection == None
    {
      if selection.Some? {
        var idx := selection.value;
        queue := queue[..idx] + queue[idx + 1..];
        selection := None;
      }
    }

    /** `clear_queue`. */
    method ClearQueue()
      modifies this`queue, this`selection
      ensures Valid() && queue == [] && selection == None
    {
      queue := [];
      selection := None;
    }

    /** `select_cookie_file` once the dialog has returned `path`; an empty
        path (the dialog was cancelled) changes nothing. */
    method SelectCookieFile(path: string)
      modifies this`cookiePath, this`logQueue
      ensures path == [] ==> cookiePath == old(cookiePath) && logQueue == old(logQueue)
      ensures path != [] ==> cookiePath == path && logQueue == old(logQueue) + [CookieSet(path)]
    {
      if path != [] {
        cookiePath := path;
        Log(CookieSet(cookiePath));
      }
    }

    /** `select_download_folder` once the dialog has returned `path`; an
        empty path changes nothing. */
    method SelectDownloadFolder(path: string)
      modifies this`downloadPath, this`logQueue
      ensures path == [] ==> downloadPath == old(downloadPath) && logQueue == old(logQueue)
      ensures path != [] ==> downloadPath == path && logQueue == old(logQueue) + [FolderSet(path)]
    {
      if path != [] {
        downloadPath := path;
        Log(FolderSet(downloadPath));
      }
    }

    /** `log`: the message goes to the back of the FIFO. */
    method Log(message: Line)
      modifies this`logQueue
      ensures logQueue == old(logQueue) + [message]
    {
      logQueue := logQueue + [message];
    }

    /** `update_log_widget`: the FIFO is drained front first, each message
        becoming one line at the end of the log window. */
    method UpdateLogWidget()
      modifies this`logQueue, this`logText
      ensures logQueue == []
      ensures logText == old(logText) + Rendered(Texts(old(logQueue)))
    {
      ghost var target := logText + Rendered(Texts(logQueue));
      while logQueue != []
        invariant logText + Rendered(Texts(logQueue)) == target
        decreases |logQueue|
      {
        var message := logQueue[0];
        var line := message.Text();
        RenderedFirst(logQueue);
        AppendAssoc(logText, line + "\n", Rendered(Texts(logQueue[1..])));
        logQueue := logQueue[1..];
        logText := logText + (line + "\n");
      }
    }

    /** `start_download_thread`: the checks in order, and only when all pass
        is the run marked as under way. */
    method StartDownloadThread() returns (r: StartResult)
      modifies this`isDownloading
      ensures r == StartGate(old(isDownloading), cookiePath, |queue|)
      ensures r == Started ==> isDownloading
      ensures r != Started ==> isDownloading == old(isDownloading)
    {
      if isDownloading {
        return Busy;
      }
      if cookiePath == [] {
        return NoCookie;
      }
      if |queue| == 0 {
        return EmptyQueue;
      }
      isDownloading := true;
      return Started;
    }

    /** `download_finished`: the run is over, the queue cleared and the
        completion line logged. */
    method DownloadFinished()
      modifies this`isDownloading, this`queue, this`selection, this`logQueue
      ensures Valid() && !isDownloading && queue == [] && selection == None
      ensures logQueue == old(logQueue) + [AllComplete]
    {
      isDownloading := false;
      queue := [];
      selection := None;
      Log(AllComplete);
    }

    /** What the library's callbacks log while one item downloads. */
    method Deliver(events: seq<LibraryEvent>)
      modifies this`logQueue
      ensures logQueue == old(logQueue) + EventLines(events, merge)
    {
      var j := 0;
      while j < |events|
        invariant 0 <= j <= |events|
        invariant logQueue == old(logQueue) + EventLines(events[..j], merge)
      {
        var line := EventLine(events[j], merge);
        if line.Some? {
          Log(line.value);
        }
        assert events[..j + 1][..j] == events[..j];
        j := j + 1;
      }
      assert events[..|events|] == events;
    }

    /** One pass of the loop of `process_queue`, with the options derived
        from the current settings: the item is announced, fetched once, and
        closed with a finish line or, when the fetch raised, an error line. */
    method ProcessItem(url: string, options: YdlOptions, f: Fetch) returns (call: FetchCall)
      modifies this`logQueue
      ensures call == FetchCall(url, options)
      ensures logQueue == old(logQueue) + ItemLines(url, merge, f)
    {
      ghost var before := logQueue;
      Log(Starting(url));
      if merge {
        Log(MergeMode);
      } else {
        Log(SplitMode);
      }
      ghost var announced := logQueue;
      assert announced == before + [Starting(url), ModeLine(merge)];
      call := FetchCall(url, options);
      Deliver(f.events);
      ghost var delivered := logQueue;
      match f.raised {
        case None => Log(Finished(url));
        case Some(text) => Log(Unexpected(text));
      }
      assert logQueue == delivered + [OutcomeLine(url, f)];
      ItemLinesAfter(before, url, merge, f);
    }

    /** One turn of the loop of `process_queue`: item `i` of the snapshot
        is selected and fetched with the options of the current settings. */
    method ProcessAt(items: seq<string>, i: nat, fetches: seq<Fetch>,
                     ghost blocks: seq<seq<Line>>, ghost settings: YdlOptions)
      returns (call: FetchCall)
      requires i < |items| == |fetches| == |blocks|
      requires blocks[i] == ItemLines(items[i], merge, fetches[i])
      requires settings == OptionsFor(merge, cookiePath, downloadPath)
      modifies this`selection, this`logQueue
      ensures selection == Some(i)
      ensures call == FetchCall(items[i], settings)
      ensures logQueue == old(logQueue) + blocks[i]
    {
      selection := Some(i);
      var options := OptionsFor(merge, cookiePath, downloadPath);
      call := ProcessItem(items[i], options, fetches[i]);
    }

    /** `process_queue` with the downloads' outcomes given: item `i` of the
        queue as it stands at the start is fetched with outcome
        `fetches[i]`, the items in queue order, each selected while it is
        processed and fetched with the options of the settings of the time;
        then `download_finished` runs once. */
    method ProcessQueue(fetches: seq<Fetch>) returns (calls: seq<FetchCall>)
      requires Valid() && |fetches| == |queue|
      modifies this`isDownloading, this`queue, this`selection, this`logQueue
      ensures Valid() && !isDownloading && queue == [] && selection == None
      ensures logQueue == old(logQueue) + RunLines(old(queue), merge, fetches) + [AllComplete]
      ensures |calls| == |old(queue)|
      ensures forall k :: 0 <= k < |calls| ==> calls[k] == FetchCall(old(queue)[k], OptionsFor(merge, cookiePath, downloadPath))
    {
      calls := ProcessItems(queue, fetches);
      DownloadFinished();
    }

    /** The loop of `process_queue` over the snapshot `items`: each row is
        selected in turn, so the last row is left selected. */
    method ProcessItems(items: seq<string>, fetches: seq<Fetch>) returns (calls: seq<FetchCall>)
      requires |fetches| == |items|
      modifies this`selection, this`logQueue
      ensures logQueue == old(logQueue) + RunLines(items, merge, fetches)
      ensures calls == CallsFor(items, OptionsFor(merge, cookiePath, downloadPath))
      ensures items != [] ==> selection == Some(|items| - 1)
      ensures items == [] ==> selection == old(selection)
    {
      ghost var blocks := ItemBlocks(items, merge, fetches);
      ghost var settings := OptionsFor(merge, cookiePath, downloadPath);
      calls := [];
      var i := 0;
      while i < |items|
        invariant 0 <= i <= |items|
        invariant logQueue == old(logQueue) + Flatten(blocks[..i])
        invariant calls == CallsFor(items[..i], settings)
        invariant i > 0 ==> selection == Some(i - 1)
        invariant i == 0 ==> selection == old(selection)
      {
        var call := ProcessAt(items, i, fetches, blocks, settings);
        calls := calls + [call];
        CallsForSnoc(items, settings, i);
        FlattenSnoc(blocks, i);
        AppendAssoc(old(logQueue), Flatten(blocks[..i]), blocks[i]);
        i := i + 1;
      }
      assert blocks[..i] == blocks && items[..i] == items;
    }

    /** A press of "Start Download" followed, when it starts a run, by that
        run to its end. */
    method Run(fetches: seq<Fetch>) returns (r: StartResult, calls: seq<FetchCall>)
      requires Valid() && |fetches| == |queue|
      modifies this`isDownloading, this`queue, this`selection, this`logQueue
      ensures Valid()
      ensures r == StartGate(old(isDownloading), old(cookiePath), |old(queue)|)
      ensures r != Started ==> isDownloading == old(isDownloading) && queue == old(queue)
                               && selection == old(selection) && logQueue == old(logQueue) && calls == []
      ensures r == Started ==> !isDownloading && queue == []
                               && logQueue == old(logQueue) + RunLines(old(queue), merge, fetches) + [AllComplete]
                               && |calls| == |old(queue)|
    ensures r == Started ==> forall k :: 0 <= k < |calls| ==>
                               calls[k] == FetchCall(old(queue)[k], OptionsFor(merge, cookiePath, downloadPath))
    {
      r := StartDownloadThread();
      calls := [];
      if r == Started {
        calls := ProcessQueue(fetches);
      }
    }
  }
}
