/** What the downloader exchanges with the outside world: the lines it prints
  * (one event per message), the calls it makes into yt-dlp, and the answers
  * yt-dlp gives. yt-dlp itself is not modelled; its answers are a parameter. */
module Effects {

  datatype Option<+T> = None | Some(value: T)

  /** One entry of `info["formats"]`; `height` is missing or a pixel count. */
  datatype FormatRecord = FormatRecord(height: Option<nat>)

  /** The metadata record `extract_info` returns; a missing key is `None`. */
  datatype Metadata = Metadata(
    title: Option<string>,
    uploader: Option<string>,
    duration: Option<string>,
    uploadDate: Option<string>,
    formats: seq<FormatRecord>)

  /** The outcome of `extract_info(url, download=True)` plus
    * `prepare_filename`: the saved file, a `DownloadError`, or any other
    * exception. */
  datatype Fetch = Fetched(file: string) | DownloadError(message: string) | OtherError(message: string)

  /** The outcome of `extract_info(url, download=False)`. */
  datatype Extraction = Extracted(meta: Metadata) | ExtractFailed(message: string)

  /** yt-dlp as seen by the program: the answer to the k-th call into the
    * library, for every k. Any sequence of successes and failures is one
    * choice of these two functions. */
  datatype Library = Library(download: nat -> Fetch, extract: nat -> Extraction)

  /** A call into yt-dlp: a download with its format expression and target
    * folder, or a metadata-only extraction. */
  datatype Call = Download(url: string, format: string, folder: string) | Extract(url: string)

  /** Everything the program prints, one constructor per message. */
  datatype Event =
    | Banner                                                  // the title box of the menu
    | MenuShown                                               // the four numbered options
    | Goodbye                                                 // option 0
    | InvalidOption                                           // any other option
    | NotPostUrl(retryHint: bool)                             // the gate refused a URL
    | QualityPrompt                                           // the five quality choices
    | BatchIntro                                              // asks for URLs until 'listo'
    | Omitted                                                 // an invalid batch line
    | NoValidUrls                                             // the batch list is empty
    | BatchStart(count: nat)                                  // "Descargando n videos"
    | Progress(index: nat, total: nat)                        // "[i/n]"
    | DownloadStarted(url: string, folder: string, quality: string)
    | Saved(file: string)
    | DownloadFailed(message: string)                         // with the public-tweet hint
    | UnexpectedError(message: string)
    | InfoStarted
    | InfoShown(title: string, uploader: string, duration: string, uploadDate: string)
    | Qualities(heights: seq<nat>)
    | InfoFailed(message: string)
    | Usage                                                   // invalid URL on the command line

  /** `info.get(key, 'N/A')` */
  function OrNA(field: Option<string>): string {
    match field
    case Some(v) => v
    case None => "N/A"
  }
}
