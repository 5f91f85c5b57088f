/** The lines the downloader writes to its log: what each says, the text it
    is shown as, and which of them the progress hook (`my_hook`) and the
    library logger adapter (`MyLogger`) produce. */
module Messages {
  import opened Wrappers
  import opened Strings

  const NotAvailable := "N/A"
  const UnknownError := "Unknown yt-dlp error"
  const DebugPrefix := "[debug] "
  const WarningPrefix := "[WARNING] "
  const ErrorPrefix := "[ERROR] "

  const MergeModeText := "[OPTIONS] Merge Mode enabled. Creating single output file."
  const SplitModeText := "[OPTIONS] Split Mode enabled. Saving separate video and audio files."
  const StreamCompleteText := " > Download of stream complete."
  const MergingText := " > Download finished. Now merging formats if needed..."
  const AllCompleteText := "====== All downloads complete! Queue Cleared. ======"

  function StartingText(url: string): string {
    "--- Starting download for: " + url + " ---"
  }

  function FinishedText(url: string): string {
    "--- Finished processing: " + url + " ---"
  }

  /** The line for an exception raised by one item's download; `error` is
      the exception's text. */
  function UnexpectedText(error: string): string {
    "!!! An unexpected error occurred: " + error + " !!!"
  }

  function DownloadingText(filename: string, percent: string, speed: string, eta: string): string {
    " > Downloading: " + filename + " | " + percent + " at " + speed + ", ETA: " + eta
  }

  function EventErrorText(error: string): string {
    " > ERROR: " + error
  }

  function CookieSetText(path: string): string {
    "Cookie file set to: " + path
  }

  function FolderSetText(path: string): string {
    "Download folder set to: " + path
  }

  /** One log message. Every message the application logs is one of these;
      `Text()` is the string it is logged as. */
  datatype Line =
    | Starting(url: string)
    | MergeMode
    | SplitMode
    | Finished(url: string)
    | Unexpected(error: string)
    | Downloading(filename: string, percent: string, speed: string, eta: string)
    | StreamComplete
    | Merging
    | EventError(error: string)
    | Library(msg: string)
    | Warned(msg: string)
    | Failed(msg: string)
    | CookieSet(path: string)
    | FolderSet(path: string)
    | AllComplete
  {
    function Text(): string {
      match this
      case Starting(url) => StartingText(url)
      case MergeMode => MergeModeText
      case SplitMode => SplitModeText
      case Finished(url) => FinishedText(url)
      case Unexpected(error) => UnexpectedText(error)
      case Downloading(filename, percent, speed, eta) => DownloadingText(filename, percent, speed, eta)
      case StreamComplete => StreamCompleteText
      case Merging => MergingText
      case EventError(error) => EventErrorText(error)
      case Library(msg) => msg
      case Warned(msg) => WarningPrefix + msg
      case Failed(msg) => ErrorPrefix + msg
      case CookieSet(path) => CookieSetText(path)
      case FolderSet(path) => FolderSetText(path)
      case AllComplete => AllCompleteText
    }
  }

  /** The lines that only the library's callbacks log: the hook's progress
      lines and the logger's messages. */
  predicate IsCallbackLine(l: Line) {
    l.Downloading? || l.StreamComplete? || l.Merging? || l.EventError?
    || l.Library? || l.Warned? || l.Failed?
  }

  /** The line announcing which of the two format modes an item is fetched in. */
  function ModeLine(merge: bool): (r: Line)
    ensures r == MergeMode <==> merge
    ensures r == SplitMode <==> !merge
  {
    if merge then MergeMode else SplitMode
  }

  /** The closing line of an item tells by its text alone whether the
      download finished or raised: the two kinds of closing line never read
      the same. */
  lemma {:induction false} ClosingLinesDiffer(url: string, error: string)
    ensures Finished(url).Text() != Unexpected(error).Text()
  {
    assert FinishedText(url)[0] == '-';
    assert UnexpectedText(error)[0] == '!';
  }

  /** The keys of a progress dictionary the hook reads. An absent optional
      key is `None`; 'status' and 'filename' are always supplied. */
  datatype ProgressEvent = ProgressEvent(
    status: string,
    filename: string,
    percent: Option<string>,
    speed: Option<string>,
    eta: Option<string>,
    keepvideo: Option<bool>,
    error: Option<string>)

  /** `d.get('keepvideo')` in a boolean context. */
  predicate KeepsVideo(d: ProgressEvent) {
    d.keepvideo == Some(true)
  }

  /** `my_hook`: the line logged for one progress event, if any. */
  function HookLine(d: ProgressEvent, merge: bool): (r: Option<Line>)
    ensures r.Some? <==> d.status in {"downloading", "finished", "error"}
    ensures d.status == "downloading" ==>
      r == Some(Downloading(d.filename, d.percent.GetOr(NotAvailable),
                            d.speed.GetOr(NotAvailable), d.eta.GetOr(NotAvailable)))
    ensures d.status == "finished" ==> r == Some(StreamComplete) || r == Some(Merging)
    ensures d.status == "finished" ==> (r == Some(StreamComplete) <==> !merge && KeepsVideo(d))
    ensures d.status == "error" ==> r == Some(EventError(d.error.GetOr(UnknownError)))
    ensures r.Some? ==> IsCallbackLine(r.value)
  {
    if d.status == "downloading" then
      Some(Downloading(d.filename, d.percent.GetOr(NotAvailable),
                       d.speed.GetOr(NotAvailable), d.eta.GetOr(NotAvailable)))
    else if d.status == "finished" then
      if !merge && KeepsVideo(d) then Some(StreamComplete) else Some(Merging)
    else if d.status == "error" then
      Some(EventError(d.error.GetOr(UnknownError)))
    else
      None
  }

  /** Each key missing from a "downloading" event shows up as "N/A", in
      either mode. */
  lemma {:induction false} DownloadingWithoutFigures(filename: string, merge: bool)
    ensures var r := HookLine(ProgressEvent("downloading", filename, None, None, None, None, None), merge);
      r.Some? && r.value.Text() == " > Downloading: " + filename + " | N/A at N/A, ETA: N/A"
  {
    var tail := " | " + NotAvailable + " at " + NotAvailable + ", ETA: " + NotAvailable;
    assert tail == " | N/A at N/A, ETA: N/A";
    assert DownloadingText(filename, NotAvailable, NotAvailable, NotAvailable)
        == " > Downloading: " + filename + tail;
  }

  /** An "error" event without an error text reports the library's
      default. */
  lemma ErrorWithoutText(filename: string, merge: bool)
    ensures var r := HookLine(ProgressEvent("error", filename, None, None, None, None, None), merge);
      r.Some? && r.value.Text() == " > ERROR: Unknown yt-dlp error"
  {
    var d := ProgressEvent("error", filename, None, None, None, None, None);
    assert HookLine(d, merge) == Some(EventError(UnknownError));
    assert EventError(UnknownError).Text() == EventErrorText(UnknownError);
    assert EventErrorText(UnknownError) == " > ERROR: " + "Unknown yt-dlp error";
  }

  /** The four methods of `MyLogger`. */
  datatype Level = Debug | Info | Warning | Error

  /** The line `MyLogger` logs for one library message at `level`, if any:
      debug messages go through `info` unless they carry the "[debug] "
      prefix; warnings and errors are marked with their level. */
  function LoggerLine(level: Level, msg: string): (r: Option<Line>)
    ensures r.None? <==> level == Debug && StartsWith(msg, DebugPrefix)
    ensures (level == Debug || level == Info) && r.Some? ==> r.value == Library(msg)
    ensures level == Warning ==> r == Some(Warned(msg))
    ensures level == Error ==> r == Some(Failed(msg))
    ensures r.Some? ==> IsCallbackLine(r.value)
  {
    match level
    case Debug => if StartsWith(msg, DebugPrefix) then None else Some(Library(msg))
    case Info => Some(Library(msg))
    case Warning => Some(Warned(msg))
    case Error => Some(Failed(msg))
  }

  /** What the logger's lines read: debug and info messages as they are,
      warnings and errors behind their level's prefix. */
  lemma {:induction false} LoggerLineText(level: Level, msg: string)
    ensures var r := LoggerLine(level, msg);
      && ((level == Debug || level == Info) && r.Some? ==> r.value.Text() == msg)
      && (level == Warning ==> r.Some? && r.value.Text() == WarningPrefix + msg)
      && (level == Error ==> r.Some? && r.value.Text() == ErrorPrefix + msg)
  {
    match level
    case Debug =>
    case Info =>
    case Warning => assert Warned(msg).Text() == WarningPrefix + msg;
    case Error => assert Failed(msg).Text() == ErrorPrefix + msg;
  }
}
