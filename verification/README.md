# Twitter/X video downloader — a verified model of its decision logic

`twitter_downloader.py` is a command-line script. It downloads the video of a Twitter/X post through the yt-dlp library. It can also print a post's metadata and the resolutions on offer. This project models in Dafny the logic of the script that does not belong to yt-dlp:

- the post-URL gate `es_url_valida`. A hand-written matcher for its regular expression is proved equal to a declarative description of the accepted shape.
- the lookup tables:
  - menu choice to quality word;
  - quality word to yt-dlp format expression;
  - empty folder answer to `descargas_twitter`.
- `descargar_video` and `obtener_info`. yt-dlp's answers are a parameter (`Effects.Library`). The answer to the k-th call into the library is `download(k)` or `extract(k)`, so every pattern of successes and failures is covered.
- the resolution summary of `obtener_info`. It is the loop that collects the truthy heights, followed by `sorted(..., reverse=True)`.
- the batch option. It covers the collection loop up to the case-insensitive sentinel `listo` and the numbered download loop.
- the interactive menu `menu_interactivo` and the entry point `main`.

Console input is a sequence of typed lines. Every menu `input()` is followed by `.strip()`, so the menu reads the stripped lines (`Driver.StripAll`). Console output is a sequence of `Event`s, one per message. The calls made into yt-dlp are a sequence of `Call`s. When the lines run out, `input()` raises `EOFError`. Nothing catches it, so the run ends there (`EndOfInput`).

The loops of the source are methods with loop invariants. Each is proved against a function of its inputs:

- `Batch.CollectUrls` against `Kept`, `Notices` and `SentinelAt`;
- `Batch.DownloadAll` against `BatchOutput` and `BatchCalls`;
- `Resolutions.Summary` against `Sorting.Descending`;
- `Driver.MenuInteractive` against the session function `Driver.Session`.

The session function has one case per menu option. `MenuFacts` proves properties of whole sessions.

Modules:
- `Text`: strip and lower;
- `UrlPattern`, `UrlExamples`: the gate;
- `Tables`;
- `Effects`: events, calls and yt-dlp answers;
- `Sorting`, `Resolutions`;
- `Downloads`: `descargar_video` and `obtener_info`;
- `Batch`;
- `Driver`: the menu and `main`;
- `MenuFacts`.

## Model

| member | source | states |
|---|---|---|
| UrlPattern.IsValidUrlMeansPattern | twitter_downloader.py:26-29 | The gate accepts a string exactly when it begins with `http://` or `https://`, an optional `www.`, `twitter.com` or `x.com`, `/`, one or more non-newline characters, `/status/` and one or more digits. Anything may follow the digits. |
| UrlPattern.ValidUrlHasStatusId | twitter_downloader.py:28-29 | Every accepted URL contains `/status/` immediately followed by a digit. |
| UrlPattern.NoStatusIdRejected | twitter_downloader.py:28-29 | A string in which `/status/` is nowhere followed by a digit is rejected. |
| UrlPattern.ShortScanFails | twitter_downloader.py:28 | Eight characters or fewer can never hold `/status/` and a digit. |
| UrlExamples.ExampleTwitter | twitter_downloader.py:26-29 | `https://twitter.com/user/status/12345` is accepted. |
| UrlExamples.ExampleX | twitter_downloader.py:26-29 | `https://x.com/42/status/999` is accepted: the short host, and any segment before `/status/`. |
| UrlExamples.ExampleTrailing | twitter_downloader.py:26-29 | `http://www.x.com/user/status/7?s=20` is accepted: text after the id is allowed. |
| UrlExamples.ExampleOtherHost | twitter_downloader.py:26-29 | A URL on another host is rejected. |
| UrlExamples.ExampleNoId | twitter_downloader.py:26-29 | `https://x.com/user/status/abc` is rejected: no digit after `/status/`. |
| UrlExamples.ExampleNoPath | twitter_downloader.py:26-29 | `https://x.com/status/1` is rejected: `.+` needs a segment between the host's `/` and `/status/`. |
| Tables.Get | twitter_downloader.py:53 | `d.get(key, default)` is the table's entry for a present key and the default for any other key. |
| Tables.FormatFor | twitter_downloader.py:47-53 | The format handed to yt-dlp is always one the table holds. |
| Tables.DefaultFormat | twitter_downloader.py:32 | The default quality `best` gives the format `best`. |
| Tables.FormatForHeight | twitter_downloader.py:50-52 | `720`, `480` and `360` give `best[height<=N]` for the same N. |
| Tables.FormatForFallback | twitter_downloader.py:47-53 | The format is `best` exactly for `best` and for every word the table lacks. It is `worst` exactly for `worst`. |
| Tables.QualityFor | twitter_downloader.py:143-144 | Every menu answer gives a quality the format table knows. An unknown answer gives `best`. |
| Tables.QualityMenu | twitter_downloader.py:141-144 | Choices 1 to 5 give the best, 720, 480, 360 and worst formats. Any other answer, the empty one included, gives `best`. |
| Tables.QualityChoicesDistinct | twitter_downloader.py:143-144 | Different menu choices select different formats. |
| Tables.FolderOr | twitter_downloader.py:146 | The folder is the answer when it is non-empty and `descargas_twitter` otherwise, so it is never empty. |
| Tables.DispatchTable | twitter_downloader.py:131-179 | Exactly `0`, `1`, `2` and `3` select exit, one download, info and batch. Every other string is refused. |
| Text.Strip | twitter_downloader.py:129 | The result is a slice of the input with only whitespace cut from either end. It has no whitespace at either end, and it is empty exactly when the input is all whitespace. |
| Text.Lower | twitter_downloader.py:161 | Same length, each letter lowered. |
| Downloads.DownloadOutcome | twitter_downloader.py:32-81 | Each download makes one yt-dlp call with the table's format for the quality. It returns a file exactly when yt-dlp saved one. It prints the announcement, then the file, the download error or the unexpected error. |
| Downloads.ShowInfo | twitter_downloader.py:84-112 | `obtener_info` prints exactly `InfoReport` of yt-dlp's answer. |
| Downloads.SomeHeight | twitter_downloader.py:104-109 | The height set is non-empty exactly when some format record has a truthy height. |
| Downloads.InfoReportShape | twitter_downloader.py:104-112 | A failed extraction prints the error and nothing else. The resolution line is printed exactly when some record has a truthy height. It lists each such height once, in strictly descending order. |
| Resolutions.CollectHeights | twitter_downloader.py:105-108 | The loop builds the set of truthy heights of the records. |
| Resolutions.Summary | twitter_downloader.py:104-110 | The printed heights are strictly descending and are exactly the truthy heights. Missing and zero heights contribute nothing. |
| Sorting.DescendingSound | twitter_downloader.py:110 | `sorted(s, reverse=True)` of a set is strictly descending, holds exactly the set's elements and has the set's size. |
| Sorting.DescendingUnique | twitter_downloader.py:110 | Any strictly descending list of a set's elements is that sorted list. |
| Batch.SentinelIgnoresCase | twitter_downloader.py:161 | An answer is the sentinel exactly when it is five letters that lower to `listo`. |
| Batch.ValidUrlNotSentinel | twitter_downloader.py:161-164 | A valid URL is never the sentinel. |
| Batch.SentinelIsFirst | twitter_downloader.py:159-162 | Collection stops at the first sentinel answer. |
| Batch.AfterSentinelIgnored | twitter_downloader.py:159-162 | Answers after the sentinel change neither where collection stops nor what it keeps. |
| Batch.KeptExactly | twitter_downloader.py:163-164 | An answer is kept exactly when it is a valid URL. |
| Batch.KeptAppend | twitter_downloader.py:163-164 | Keeping distributes over concatenation, so kept URLs keep their relative order. |
| Batch.OneMoreAnswer | twitter_downloader.py:163-166 | A blank line adds neither a URL nor a notice. An invalid non-empty line adds one notice and no URL. A valid line adds itself at the end and no notice. |
| Batch.EveryAnswerAccounted | twitter_downloader.py:163-166 | Each answer is kept, reported as omitted, or blank: exactly one of the three. |
| Batch.CollectUrls | twitter_downloader.py:158-166 | The loop returns the valid answers before the sentinel and one notice per invalid non-empty one. It reports how many lines it read and whether the sentinel came. |
| Batch.DownloadAll | twitter_downloader.py:174-176 | The loop prints `BatchOutput` and makes the calls `BatchCalls`. |
| Batch.BatchCallsInOrder | twitter_downloader.py:174-176 | Exactly one download per URL, in list order, into the folder, at format `best`. |
| Batch.ProgressNumbering | twitter_downloader.py:174-176 | Three events per URL. The marks are `[1/n]` to `[n/n]` in order, and nothing else printed is a mark. |
| Driver.RunSingle | twitter_downloader.py:135-147 | Option 1 runs as `SingleSession` says. It calls yt-dlp exactly when the URL is valid and the quality and folder were read. |
| Driver.RunInfo | twitter_downloader.py:149-154 | Option 2 runs as `InfoSession` says. |
| Driver.CollectBatch | twitter_downloader.py:158-166 | The collection loop's results on the answers after option 3. |
| Driver.BatchOutOfInput | twitter_downloader.py:159-160 | Input that ends before `listo` ends the run after the notices. |
| Driver.BatchNothingKept | twitter_downloader.py:168-170 | No URL kept: the message, then back to the menu. |
| Driver.BatchDownload | twitter_downloader.py:172-176 | URLs kept: the folder question and the download loop. |
| Driver.RunDownloads | twitter_downloader.py:172-176 | The folder answer or its default, the `n videos` line and the download loop. Input that ends at the folder question ends the run. |
| Driver.RunBatch | twitter_downloader.py:156-176 | Option 3 runs as `BatchSession` says. |
| Driver.HandleOption | twitter_downloader.py:129-179 | One pass of the menu loop runs as `Session` says, and it reads at least one answer unless it stops. |
| Driver.MenuInteractive | twitter_downloader.py:115-179 | The `while True` loop prints, calls and ends exactly as `Menu` of the answers says. |
| Driver.RunProgram | twitter_downloader.py:182-197 | A valid URL argument gives one download with `argv[2]`/`argv[3]` or their defaults. An invalid one prints the usage line and calls nothing. No argument runs the menu on the stripped lines. |
| MenuFacts.MenuDispatch | twitter_downloader.py:131-133 | `0` prints the goodbye and ends the session. An option other than `0`-`3` prints the error and reads the next option. |
| MenuFacts.SessionClosesOnGoodbye | twitter_downloader.py:122-179 | The session ends by `break` exactly when the goodbye of option `0` is printed, and then the goodbye comes once, right after the menu, as the last line: no other option, URL, quality, folder or batch answer ends it. |
| MenuFacts.SessionGated | twitter_downloader.py:135-176 | Every yt-dlp call of a session is for a URL the gate accepted. Every download asks for a format from the table. |
| MenuFacts.EmptyBatchDownloadsNothing | twitter_downloader.py:168-170 | With no valid URL before `listo`, option 3 prints "No se ingresaron URLs válidas." and adds no yt-dlp call. |

## Left out

- `instalar_ytdlp` (twitter_downloader.py:14-23) is not modelled. It imports yt-dlp or installs it with pip in a subprocess, which changes the environment.
- Everything inside yt-dlp is not modelled: `YoutubeDL`, `extract_info`, `prepare_filename` and the exceptions they raise. Their answers are the parameter `Library`. A `DownloadError`, any other exception, a saved file and an extraction result are its possible answers.
- `Path(carpeta).mkdir(...)` is not modelled. It sits outside the `try`, so a failure there would end the program. The model assumes it succeeds.
- The output template built with `os.path.join` is not modelled.
- The destination line prints `os.path.abspath` of the folder. The model's `DownloadStarted` carries the folder as given.
- Messages are events, not text. The event carries each message's data, but the wording, emoji and line breaks are not modelled. Neither is the `p` suffix and comma join of the resolution line.
- The prompts that `input()` prints are not events.
- The folder prompt of option 1 (twitter_downloader.py:146) says that Enter means the current folder. The code uses `descargas_twitter`, and the model follows the code.
- `str.strip`, `str.lower` and `\d` are modelled on ASCII: ASCII whitespace, ASCII letters and ASCII digits. Python applies them to all of Unicode.
- Heights are natural numbers. A `height` that is not a non-negative integer is not modelled.
- The metadata fields are optional strings, and `OrNA` gives `N/A` for a missing one. Their formatting as numbers is not modelled.
- A missing `formats` key is the empty list, as `info.get("formats", [])` gives.
- Running out of input ends the run with `EndOfInput`; in the program, `EOFError` ends it. `KeyboardInterrupt` is not modelled.
- `main` uses `argv[2]` verbatim as the folder, even when it is empty, because the command line has no `or` default. `argv[3]` is passed to `descargar_video` unchanged, where an unknown word gives the format `best`.
