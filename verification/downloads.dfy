/** The two operations that call into yt-dlp: `descargar_video`, which
  * downloads one post's video, and `obtener_info`, which prints its metadata
  * and available resolutions. yt-dlp's answer is a parameter. */
module Downloads {
  import opened Effects
  import opened Tables
  import opened Sorting
  import opened Resolutions

  /** What one `descargar_video` call amounts to: the file it returns (`None`
    * on any error), what it prints, and the call it makes into yt-dlp. */
  datatype Attempt = Attempt(file: Option<string>, out: seq<Event>, call: Call)

  /** `descargar_video(url, folder, quality)` when yt-dlp answers `answer`
    * (twitter_downloader.py:32-81). */
  function DownloadVideo(url: string, folder: string, quality: string, answer: Fetch): Attempt {
    var call := Download(url, FormatFor(quality), folder);
    var started := DownloadStarted(url, folder, quality);
    match answer
    case Fetched(file) => Attempt(Some(file), [started, Saved(file)], call)
    case DownloadError(message) => Attempt(None, [started, DownloadFailed(message)], call)
    case OtherError(message) => Attempt(None, [started, UnexpectedError(message)], call)
  }

  /** One download asks yt-dlp for the format the table gives the quality
    * (a format the table holds), and returns a file exactly when yt-dlp
    * saved one. It prints two lines: the announcement with the URL, folder
    * and quality, then the saved file, the download error with its message,
    * or the unexpected error with its message. */
  lemma DownloadOutcome(url: string, folder: string, quality: string, answer: Fetch)
    ensures DownloadVideo(url, folder, quality, answer).call == Download(url, FormatFor(quality), folder)
    ensures DownloadVideo(url, folder, quality, answer).call.format in FormatTable.Values
    ensures DownloadVideo(url, folder, quality, answer).file.Some? <==> answer.Fetched?
    ensures answer.Fetched? ==> DownloadVideo(url, folder, quality, answer).file == Some(answer.file)
    ensures |DownloadVideo(url, folder, quality, answer).out| == 2
    ensures DownloadVideo(url, folder, quality, answer).out[0] == DownloadStarted(url, folder, quality)
    ensures answer.Fetched? ==> DownloadVideo(url, folder, quality, answer).out[1] == Saved(answer.file)
    ensures answer.DownloadError? ==> DownloadVideo(url, folder, quality, answer).out[1] == DownloadFailed(answer.message)
    ensures answer.OtherError? ==> DownloadVideo(url, folder, quality, answer).out[1] == UnexpectedError(answer.message)
  {
  }

  /** What `obtener_info` prints when yt-dlp answers `answer`
    * (twitter_downloader.py:84-112). */
  ghost function InfoReport(answer: Extraction): seq<Event> {
    match answer
    case ExtractFailed(message) => [InfoStarted, InfoFailed(message)]
    case Extracted(meta) =>
      var shown := InfoShown(OrNA(meta.title), OrNA(meta.uploader), OrNA(meta.duration), OrNA(meta.uploadDate));
      var found := TruthyHeights(meta.formats);
      [InfoStarted, shown] + (if found == {} then [] else [Qualities(Descending(found))])
  }

  /** `obtener_info`: the header, the four fields, and the resolution line
    * when some format has a truthy height. */
  method ShowInfo(answer: Extraction) returns (out: seq<Event>)
    ensures out == InfoReport(answer)
  {
    match answer {
      case ExtractFailed(message) =>
        out := [InfoStarted, InfoFailed(message)];
      case Extracted(meta) =>
        out := [InfoStarted, InfoShown(OrNA(meta.title), OrNA(meta.uploader), OrNA(meta.duration), OrNA(meta.uploadDate))];
        var heights := Summary(meta.formats);
        if heights != [] {
          out := out + [Qualities(heights)];
        } else {
          DescendingSound(TruthyHeights(meta.formats));
        }
    }
  }

  /** Some format record has a truthy height exactly when the set is non-empty. */
  lemma SomeHeight(formats: seq<FormatRecord>)
    ensures TruthyHeights(formats) != {} <==> exists f :: f in formats && HasHeight(f)
  {
    if TruthyHeights(formats) != {} {
      var h := Element(TruthyHeights(formats));
      var f :| f in formats && HasHeight(f) && f.height.value == h;
    }
    if exists f :: f in formats && HasHeight(f) {
      var f :| f in formats && HasHeight(f);
      assert f.height.value in TruthyHeights(formats);
    }
  }

  /** The resolution line: printed exactly when some record has a truthy
    * height, listing each such height once, highest first; a failed
    * extraction prints the error and nothing else. */
  lemma InfoReportShape(answer: Extraction)
    ensures answer.ExtractFailed? ==> InfoReport(answer) == [InfoStarted, InfoFailed(answer.message)]
    ensures answer.Extracted? ==>
      |InfoReport(answer)| in {2, 3} &&
      (|InfoReport(answer)| == 3 <==> exists f :: f in answer.meta.formats && HasHeight(f))
    ensures answer.Extracted? && |InfoReport(answer)| == 3 ==>
      var q := InfoReport(answer)[2];
      q.Qualities? && StrictlyDescending(q.heights) &&
      forall h :: h in q.heights <==> exists f :: f in answer.meta.formats && HasHeight(f) && f.height.value == h
  {
    if answer.Extracted? {
      var formats := answer.meta.formats;
      SomeHeight(formats);
      DescendingSound(TruthyHeights(formats));
    }
  }
}
