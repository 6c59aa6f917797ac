/** The lookup tables of the downloader: the yt-dlp format for each quality
  * word, the quality word for each menu choice, the default destination, and
  * the menu's option dispatch. Each dictionary lookup `d.get(key, default)`
  * is total: a key the table lacks yields the default. */
module Tables {

  /** `d.get(key, default)` */
  function Get(d: map<string, string>, key: string, default: string): (r: string)
    ensures key in d ==> r == d[key]
    ensures key !in d ==> r == default
  {
    if key in d then d[key] else default
  }

  /** Quality word to yt-dlp format expression (twitter_downloader.py:47-52). */
  const FormatTable: map<string, string> := map[
    "best" := "best",
    "worst" := "worst",
    "720" := "best[height<=720]",
    "480" := "best[height<=480]",
    "360" := "best[height<=360]"
  ]

  /** The format `descargar_video` hands to yt-dlp for `quality`. */
  function FormatFor(quality: string): (format: string)
    ensures format in FormatTable.Values
  {
    assert FormatTable["best"] == "best";
    Get(FormatTable, quality, "best")
  }

  /** The quality `descargar_video` uses when none is given. */
  const DefaultQuality: string := "best"

  /** The default quality is the table's own word for the best format. */
  lemma DefaultFormat()
    ensures FormatFor(DefaultQuality) == DefaultQuality
  {
    assert FormatTable[DefaultQuality] == DefaultQuality;
  }

  /** The three height words cap the height at that many lines. */
  lemma FormatForHeight(quality: string)
    requires quality == "720" || quality == "480" || quality == "360"
    ensures FormatFor(quality) == "best[height<=" + quality + "]"
  {
  }

  /** The mapping is total: exactly the words "best" and every word the table
    * lacks give "best"; "worst" gives "worst". */
  lemma FormatForFallback(quality: string)
    ensures FormatFor(quality) == "best" <==> quality == "best" || quality !in FormatTable
    ensures FormatFor(quality) == "worst" <==> quality == "worst"
  {
    if quality in FormatTable && quality != "best" {
      assert quality == "worst" || quality == "720" || quality == "480" || quality == "360";
    }
  }

  /** Menu quality choice to quality word (twitter_downloader.py:143). */
  const QualityTable: map<string, string> := map[
    "1" := "best",
    "2" := "720",
    "3" := "480",
    "4" := "360",
    "5" := "worst"
  ]

  /** `calidades.get(cal_opcion, "best")` (twitter_downloader.py:143-144): every
    * choice, known or not, names a quality the format table knows. */
  function QualityFor(choice: string): (quality: string)
    ensures quality in FormatTable
    ensures choice !in QualityTable ==> quality == "best"
  {
    Get(QualityTable, choice, "best")
  }

  /** The five menu choices pick five different formats. */
  lemma QualityChoicesDistinct(c1: string, c2: string)
    requires c1 in QualityTable && c2 in QualityTable && c1 != c2
    ensures FormatFor(QualityFor(c1)) != FormatFor(QualityFor(c2))
  {
  }

  /** What the quality menu offers: "1" best, "2" 720, "3" 480, "4" 360,
    * "5" worst, and anything else (the empty answer included) best. */
  lemma QualityMenu(choice: string)
    ensures choice == "1" ==> FormatFor(QualityFor(choice)) == "best"
    ensures choice == "2" ==> FormatFor(QualityFor(choice)) == "best[height<=720]"
    ensures choice == "3" ==> FormatFor(QualityFor(choice)) == "best[height<=480]"
    ensures choice == "4" ==> FormatFor(QualityFor(choice)) == "best[height<=360]"
    ensures choice == "5" ==> FormatFor(QualityFor(choice)) == "worst"
    ensures choice !in {"1", "2", "3", "4", "5"} ==> QualityFor(choice) == "best"
  {
  }

  /** The folder used when none is given. */
  const DefaultFolder: string := "descargas_twitter"

  /** `input(...).strip() or "descargas_twitter"`: the folder typed at a
    * menu prompt, or the default when the answer is empty. */
  function FolderOr(answer: string): (folder: string)
    ensures folder != []
    ensures answer != [] ==> folder == answer
    ensures answer == [] ==> folder == DefaultFolder
  {
    if answer == [] then DefaultFolder else answer
  }

  /** The menu options (twitter_downloader.py:131-179). */
  datatype Choice = Exit | Single | Info | Many | Unknown

  /** The `if`/`elif` chain on the stripped option. */
  function Dispatch(option: string): Choice {
    if option == "0" then Exit
    else if option == "1" then Single
    else if option == "2" then Info
    else if option == "3" then Many
    else Unknown
  }

  /** Only the exact strings "0" to "3" select an action; everything else,
    * the empty answer included, is refused. */
  lemma DispatchTable(option: string)
    ensures Dispatch(option) == Exit <==> option == "0"
    ensures Dispatch(option) == Single <==> option == "1"
    ensures Dispatch(option) == Info <==> option == "2"
    ensures Dispatch(option) == Many <==> option == "3"
    ensures Dispatch(option) == Unknown <==> option !in {"0", "1", "2", "3"}
  {
  }
}
