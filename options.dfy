/** The option dictionary handed to the download library for each queue
    item (`ydl_opts`). */
module Options {
  import opened Wrappers
  import opened Strings

  /** The output naming template: title and identifier of the video. */
  const OutputTemplate := "%(title)s - [%(id)s].%(ext)s"
  /** Best video plus best audio, merged; the best single stream when there
      are no separate streams. */
  const MergeFormat := "bv*+ba/b"
  /** Best video-only and best audio-only streams, as two separate files. */
  const SplitFormat := "bv*,ba"

  /** The keys of `ydl_opts` other than the hook and the logger, which are
      always this application's own `my_hook` and `MyLogger`. An absent
      'keepvideo' key is `None`. */
  datatype YdlOptions = YdlOptions(
    outtmpl: string,
    cookiefile: string,
    noplaylist: bool,
    ignoreerrors: bool,
    format: string,
    keepvideo: Option<bool>)

  /** The options for one item, from the merge checkbox, the cookie file
      path and the download folder at the time the item is dispatched. Every
      item is fetched with playlists expanded, errors ignored, the chosen
      cookie file and the output template under the download folder;
      merging asks for the combined format and leaves out 'keepvideo',
      splitting asks for the two separate streams and keeps them. */
  function OptionsFor(merge: bool, cookiePath: string, downloadPath: string): (o: YdlOptions)
    ensures o.ignoreerrors && !o.noplaylist
    ensures o.cookiefile == cookiePath
    ensures o.outtmpl == PathJoin(downloadPath, OutputTemplate)
    ensures merge ==> o.format == MergeFormat && o.keepvideo.None?
    ensures !merge ==> o.format == SplitFormat && o.keepvideo == Some(true)
  {
    var base := YdlOptions(PathJoin(downloadPath, OutputTemplate), cookiePath, false, true, "", None);
    if merge then base.(format := MergeFormat)
    else base.(format := SplitFormat, keepvideo := Some(true))
  }

  /** Files land in the download folder: the template is the last part of
      the output path and the folder is its first. */
  lemma {:induction false} OutputUnderFolder(merge: bool, cookiePath: string, downloadPath: string)
    ensures var t := OptionsFor(merge, cookiePath, downloadPath).outtmpl;
      StartsWith(t, downloadPath) && |t| >= |OutputTemplate| && t[|t| - |OutputTemplate|..] == OutputTemplate
  {
    assert !StartsWith(OutputTemplate, "/") by { assert OutputTemplate[0] == '%'; }
    PathJoinParts(downloadPath, OutputTemplate);
  }
}
