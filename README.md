# Download-queue controller of the streamer VOD downloader

This project models the download-queue controller of `YtDownloaderApp` in
`streamer_downloader.py`, a tkinter front end to the `yt_dlp` library. It
proves properties of that model in Dafny. The controller consists of:

- the **queue store**: the rows of the queue listbox and the selected row,
  edited by `add_to_queue`, `move_item`, `remove_item` and `clear_queue`;
- the **start gate**: `start_download_thread` refuses a run that is already
  under way, one without a cookie file, and one with an empty queue, in that
  order; `download_finished` ends a run;
- the **worker loop**: `process_queue` walks a snapshot of the queue. For
  each item it logs a start line and a mode line, derives the option
  dictionary `ydl_opts`, fetches the item once, and logs a finish line or,
  when the fetch raised, an error line;
- the **message formatting**: `my_hook` turns progress events into log
  lines, and `MyLogger` filters and prefixes library messages;
- the **log sink**: `log` puts a message on a FIFO, and
  `update_log_widget` drains it into the log window in order.

Files:

- `wrappers.dfy`: the `Option` type.
- `strings.dfy`: Python's `str.strip`, `str.split` and `str.join`, and
  `os.path.join` (POSIX).
- `queue.dfy`: the queue edits as functions, and their properties.
- `messages.dfy`: the log lines, `my_hook` and `MyLogger`.
- `options.dfy`: the per-item option dictionary.
- `worker.dfy`: what one run logs.
- `logsink.dfy`: the text the log window shows.
- `downloader.dfy`: the application object. Class `App` has the
  controller's fields, and its methods change them in place as the source
  does.

The download itself is not visible to the application. One item's download
is modelled as a `Fetch`: the callbacks the library makes, in order, then
either a normal return or an exception with its text. `ProcessQueue` and
`Run` take one `Fetch` per queue item. They return the library calls made
(URL and options), so the options each item is fetched with are part of the
contract.

Log messages are values of the datatype `Messages.Line`. `Line.Text()` is
the exact string the source formats for that message. Formatting is pure, so
rendering the text when the FIFO is drained writes the same text as
formatting it when it is put.

Three points of the code shape the model:

- An item gets its finish line only when the fetch returns. When the fetch
  raises, the error line takes its place.
- The queue edits act on the listbox selection. They take no index
  argument.
- `cookiefile` is always set to the chosen path, and a run cannot start
  without one.

`RunLines` (everything one run logs) and `PathJoin` (`os.path.join`) carry
no postcondition of their own. Their properties are proved as lemmas:
`Worker.RunLinesSnoc`, `Worker.ItemBlockIntact`, `Worker.EveryItemLogged`
and `Worker.RunLinesLength` for the first, `Strings.PathJoinParts` for the
second. Stated as postconditions, these facts would be assumed at every
use of the function, which makes the proof of the worker loop much
costlier.

## Model

| member | source | states |
|---|---|---|
| Strings.Strip | streamer_downloader.py:107 | the stripped text has no whitespace at either end, is no longer than the input, and text without surrounding whitespace is returned unchanged |
| Strings.StripIsMiddle | streamer_downloader.py:107 | the stripped text is a contiguous middle part of the input, and everything cut off before and after it is whitespace |
| Strings.StripEmpty | streamer_downloader.py:112 | a line strips to the empty string exactly when every character of it is whitespace, so exactly those lines are skipped |
| Strings.Split | streamer_downloader.py:110 | splitting yields at least one piece and no piece contains the separator |
| Strings.JoinSplit | streamer_downloader.py:110 | joining the pieces of a split with the separator gives back the text |
| Strings.SplitJoin | streamer_downloader.py:110 | splitting pieces that do not contain the separator, after joining them with it, gives back the pieces |
| Strings.PathJoinParts | streamer_downloader.py:124 | `os.path.join` keeps an absolute name as it is; otherwise the result starts with the folder, ends with the name, and has one '/' between them unless the folder already ends with one |
| QueueModel.KeepLine | streamer_downloader.py:112-113 | a line that strips to nothing contributes nothing; any other line contributes exactly its stripped text, which is non-empty, stripped, and a single line when the line was |
| QueueModel.Kept | streamer_downloader.py:111-113 | the loop over the lines keeps no more items than lines, and every kept item is non-empty and stripped |
| QueueModel.KeptSingleLines | streamer_downloader.py:110-113 | lines cut at the newlines are kept as single-line items |
| QueueModel.NewItems | streamer_downloader.py:107-113 | text that strips to the hint adds nothing; every item `add_to_queue` adds is non-empty, stripped and a single line |
| QueueModel.KeptAppend | streamer_downloader.py:111-113 | the lines kept from two runs of lines are those of the first followed by those of the second |
| QueueModel.NonBlankLineAddsItsStrip | streamer_downloader.py:111-113 | a line that is not blank, wherever it stands, adds exactly its stripped text, between what the lines before it and the lines after it add |
| QueueModel.BlankLineAddsNothing | streamer_downloader.py:111-113 | a blank line anywhere in the input adds nothing to the queue |
| QueueModel.KeptClean | streamer_downloader.py:111-113 | lines that are already clean are all kept, unchanged and in order |
| QueueModel.NothingFromEmptyText | streamer_downloader.py:107-113 | an empty URL box adds nothing |
| QueueModel.ReaddRoundTrip | streamer_downloader.py:105-113 | pasting clean items back, one per line, adds exactly those items in that order |
| QueueModel.ThreeLinesAndBlank | streamer_downloader.py:105-113 | three URLs around a blank line add exactly those three URLs, in input order |
| QueueModel.Move | streamer_downloader.py:167-175 | with nothing selected, Up on the first row or Down on the last, queue and selection are unchanged; otherwise the selected row trades places with its neighbour, every other row stays, the length and contents are kept, and the selection follows the row |
| QueueModel.MoveBack | streamer_downloader.py:167-175 | moving a row and then moving it in the opposite direction restores queue and selection |
| QueueModel.Removed | streamer_downloader.py:177-179 | with no selection the queue is unchanged; otherwise exactly the selected row is gone, and putting it back at its index restores the queue |
| QueueModel.RemovedKeepsOrder | streamer_downloader.py:177-179 | rows above the removed one keep their index and rows below it move up by one |
| Messages.ModeLine | streamer_downloader.py:132-138 | the merge-mode line is logged exactly when merging, the split-mode line exactly when not |
| Messages.ClosingLinesDiffer | streamer_downloader.py:145-147 | an item's finish line and its error line never read the same |
| Messages.HookLine | streamer_downloader.py:222-235 | a line is logged exactly for the statuses "downloading", "finished" and "error"; "downloading" shows the filename and each missing figure as "N/A"; "finished" gives the stream-complete line exactly when not merging and the event keeps the video, and the merging line otherwise; "error" shows the error text or the library default |
| Messages.DownloadingWithoutFigures | streamer_downloader.py:223-227 | a "downloading" event without percent, speed or ETA is logged as " > Downloading: <file> \| N/A at N/A, ETA: N/A" |
| Messages.ErrorWithoutText | streamer_downloader.py:234-235 | an "error" event without an error text is logged as " > ERROR: Unknown yt-dlp error" |
| Messages.LoggerLine | streamer_downloader.py:237-243 | a message is dropped exactly when it is a debug message starting with "[debug] "; kept debug and info messages are logged as library lines, warnings as warning lines and errors as error lines, all of them lines only callbacks log |
| Messages.LoggerLineText | streamer_downloader.py:237-243 | kept debug and info messages read as they are; warnings and errors read with the "[WARNING] " and "[ERROR] " prefixes |
| Options.OptionsFor | streamer_downloader.py:123-140 | every item is fetched with errors ignored, playlists expanded, the chosen cookie file and the output template joined to the download folder; merging asks for "bv*+ba/b" without 'keepvideo', splitting asks for "bv*,ba" with 'keepvideo' true |
| Options.OutputUnderFolder | streamer_downloader.py:124 | the output path starts with the download folder and ends with the naming template |
| Worker.EventLine | streamer_downloader.py:222-243 | a callback logs at most one line, and that line is always a callback line, never a start, mode or closing line |
| Worker.EventLines | streamer_downloader.py:143-144 | the callbacks of one download log no more lines than there are callbacks, and all of them are callback lines |
| Worker.EventLinesAppend | streamer_downloader.py:143-144 | the lines of two runs of callbacks are the lines of the first followed by those of the second, so lines are logged in callback order |
| Worker.EventLinesFromEvents | streamer_downloader.py:222-243 | every line logged during a download is the line of one of the callbacks |
| Worker.OutcomeLine | streamer_downloader.py:145-147 | an item closes with its finish line exactly when its download did not raise, and with the exception's line when it did; neither is a callback line |
| Worker.ItemLines | streamer_downloader.py:120-147 | an item logs at least three lines, the first its start line and the second its mode line |
| Worker.ItemLinesShape | streamer_downloader.py:120-147 | an item's lines end with its closing line, with one line per logged callback between the mode line and it, and only callback lines there; they include its finish line exactly when its download did not raise; the mode line reads as the chosen mode |
| Worker.ItemBlocks | streamer_downloader.py:117-118 | the run has one block of lines per snapshot item, block `i` belonging to item `i` |
| Worker.RunLinesSnoc | streamer_downloader.py:118-147 | a run over one more item logs that item's lines after everything before |
| Worker.ItemBlockIntact | streamer_downloader.py:118-147 | each item's lines appear whole, after the lines of the items before it and before those of the items after it, whether or not earlier downloads raised |
| Worker.EveryItemLogged | streamer_downloader.py:118-147 | item `i`'s lines start right after those of the items before it with its start line and mode line, and end with its finish line when its download returned or its exception's line when it raised; its finish line is among them exactly when the download did not raise |
| Worker.RunLinesLength | streamer_downloader.py:118-147 | a run logs at least three lines per item |
| LogSink.RenderedFirst | streamer_downloader.py:188-191 | draining a non-empty FIFO writes the front message's text and a newline, then the rest |
| LogSink.RenderedAppend | streamer_downloader.py:187-197 | draining two batches one after the other writes what draining them at once writes, so when the timer fires does not matter |
| LogSink.RenderedIsJoin | streamer_downloader.py:191 | the drained text is the messages joined by newlines, with a final newline |
| LogSink.RenderedLines | streamer_downloader.py:187-193 | messages without a newline of their own can be read back from the log window, one per line, in the order they were put |
| Downloader.StartGate | streamer_downloader.py:199-213 | a start is refused as busy exactly when a run is under way; for lack of a cookie file exactly when none is chosen and no run is under way; for an empty queue exactly when neither of those holds and the queue is empty; it goes ahead exactly when all three checks pass |
| Downloader.CallsFor | streamer_downloader.py:117-140 | a run makes one library call per snapshot item, in queue order, each with that item's URL and the run's options |
| Downloader.App.constructor | streamer_downloader.py:13-19 | a new window has an empty queue and log, no selection, no cookie file, split mode, no run under way, and the download folder `Downloads` under the home directory |
| Downloader.App.SetMerge | streamer_downloader.py:19 | the merge checkbox holds the value the user set |
| Downloader.App.AddToQueue | streamer_downloader.py:105-113 | the queue becomes the old queue followed by the new items of the text; the selection stays valid |
| Downloader.App.AddLines | streamer_downloader.py:110-113 | the loop appends the kept lines, in order, after the existing rows |
| Downloader.App.MoveItem | streamer_downloader.py:167-175 | deleting the selected row and inserting it one place up or down gives queue and selection as `QueueModel.Move` says |
| Downloader.App.RemoveItem | streamer_downloader.py:177-179 | the queue becomes `QueueModel.Removed` of the old queue and selection, and nothing is selected |
| Downloader.App.ClearQueue | streamer_downloader.py:181-182 | the queue is empty and nothing is selected |
| Downloader.App.SelectCookieFile | streamer_downloader.py:153-158 | an empty path changes nothing; otherwise the cookie path becomes the path and the cookie line is logged |
| Downloader.App.SelectDownloadFolder | streamer_downloader.py:160-165 | an empty path changes nothing; otherwise the download folder becomes the path and the folder line is logged |
| Downloader.App.Log | streamer_downloader.py:184-185 | the message is put at the back of the FIFO |
| Downloader.App.UpdateLogWidget | streamer_downloader.py:187-193 | the FIFO is left empty and the log window gains the texts of its messages, front first, each followed by a newline |
| Downloader.App.StartDownloadThread | streamer_downloader.py:199-213 | the outcome is the start gate's verdict; the run flag is set exactly when the start goes ahead and is otherwise unchanged |
| Downloader.App.DownloadFinished | streamer_downloader.py:215-219 | no run is under way, the queue is empty with nothing selected, and the completion line is the last line logged |
| Downloader.App.Deliver | streamer_downloader.py:143-144 | the callbacks of one download log their lines in callback order |
| Downloader.App.ProcessItem | streamer_downloader.py:120-147 | the item is fetched once with the given options, and its start line, mode line, callback lines and closing line are logged in that order |
| Downloader.App.ProcessAt | streamer_downloader.py:118-147 | item `i` of the snapshot is selected, fetched once with the options of the current settings, and its lines are logged |
| Downloader.App.ProcessItems | streamer_downloader.py:118-147 | the loop fetches every snapshot item once, in queue order, with the options of the current settings, and logs the run's lines; each row is selected in turn, so the last row is left selected, and an empty snapshot leaves the selection as it was |
| Downloader.App.ProcessQueue | streamer_downloader.py:116-148 | the run logs every item's lines in queue order, then the completion line once; the items are fetched once each, in order, with the current options; afterwards no run is under way, the queue is empty and nothing is selected |
| Downloader.App.Run | streamer_downloader.py:199-219 | a refused start changes nothing and fetches nothing; a start that goes ahead runs the whole snapshot, fetches one item per queue row, and ends with an empty queue, no run under way and the completion line logged |

## Left out

- The tkinter widgets, layout, themes, `periodic_log_check`'s scheduling and the `__main__` block are presentation code.
- The `filedialog` and `messagebox` calls are user interaction. The chosen path is a parameter of `SelectCookieFile` and `SelectDownloadFolder`. The warning boxes of a refused start are the `StartResult` values. The final success box is not modelled.
- The `cookie_label`, `download_label` and start-button texts are not modelled.
- `os.path.expanduser('~')` is replaced by the `home` parameter of the constructor.
- The worker thread, `parent.after` and the 100 ms timer are replaced by one sequential `Run`: the start gate, then the loop, then `download_finished`. The selection highlight that the loop schedules with `after` is applied at once.
- Races between user edits and a running worker are not modelled. The source takes no lock and makes no promise about them.
- `yt_dlp.YoutubeDL(...).download` is a foreign library. It is replaced by a given `Fetch` per item: the callbacks the library makes and whether the call raised.
- A progress event without a 'filename' key would raise `KeyError` inside the hook. The model assumes the library always supplies it.
- A progress key that is present with the value `None` is not modelled; an absent key is `None` in the model. Only `keepvideo` equal to `True` counts as truthy in the "finished" branch.
- The placeholder focus handlers are not modelled. The hint text is a constant that `add_to_queue` compares against. Clearing or refilling the URL box after adding is not modelled.
- `move_item` takes the `Direction` datatype (`Up` or `Down`) instead of the integers -1 and 1 that its two buttons pass.
- Log messages are kept on the FIFO as `Messages.Line` values and turned into text when drained. The text is the same either way.
- `os.path.join` is modelled with POSIX rules only.
- Downloader.App.ProcessQueue: requires one `Fetch` per queue row, because each item's download is an input of the model.
- Downloader.App.Run: requires one `Fetch` per queue row, for the same reason.
