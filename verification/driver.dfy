/** The interactive menu of `menu_interactivo` (twitter_downloader.py:115-179)
  * and the entry point `main` (twitter_downloader.py:182-197).
  *
  * Every `input()` of the menu is followed at once by `.strip()`, so the
  * menu reads from the sequence of stripped answers. When that sequence runs
  * out, `input()` raises `EOFError`, which nothing catches: the session
  * ends there with `EndOfInput`. */
module Driver {
  import opened Text
  import opened UrlPattern
  import opened Effects
  import opened Tables
  import opened Downloads
  import opened Batch

  /** How one pass of the menu loop ends: back to the menu, `break` on
    * option "0", or no more input. */
  datatype Outcome = Continue | Stop | OutOfInput

  /** One pass of the menu loop: what it prints, the yt-dlp calls it makes,
    * where the next pass reads, and how it ends. */
  datatype Turn = Turn(out: seq<Event>, calls: seq<Call>, next: nat, outcome: Outcome)

  /** How a whole run ends. */
  datatype Ending = Exited | EndOfInput

  /** A whole run: everything printed, every yt-dlp call, and how it ended. */
  datatype Run = Run(out: seq<Event>, calls: seq<Call>, end: Ending)

  /** `run` preceded by more output and calls. */
  function Prepend(out: seq<Event>, calls: seq<Call>, run: Run): Run {
    Run(out + run.out, calls + run.calls, run.end)
  }

  /** The lines typed at the terminal, each stripped. */
  function StripAll(lines: seq<string>): seq<string> {
    seq(|lines|, k requires 0 <= k < |lines| => Strip(lines[k]))
  }

  /** The menu loop from the pass that reads its option at `pos` on, `made`
    * yt-dlp calls having been made before (twitter_downloader.py:122-179). */
  ghost function Session(answers: seq<string>, pos: nat, lib: Library, made: nat): Run
    requires pos <= |answers|
    decreases |answers| - pos, 1
  {
    if pos == |answers| then Run([MenuShown], [], EndOfInput)
    else
      match Dispatch(answers[pos])
      case Exit => Run([MenuShown, Goodbye], [], Exited)
      case Single => SingleSession(answers, pos, lib, made)
      case Info => InfoSession(answers, pos, lib, made)
      case Many => BatchSession(answers, pos, lib, made)
      case Unknown => Prepend([MenuShown, InvalidOption], [], Session(answers, pos + 1, lib, made))
  }

  /** Option "1" read at `pos` (twitter_downloader.py:135-147): the URL, then
    * the quality choice, then the folder; the download is yt-dlp's call
    * number `made`. */
  ghost function SingleSession(answers: seq<string>, pos: nat, lib: Library, made: nat): Run
    requires pos < |answers|
    decreases |answers| - pos, 0
  {
    if pos + 1 == |answers| then Run([MenuShown], [], EndOfInput)
    else
      var url := answers[pos + 1];
      if !IsValidUrl(url) then Prepend([MenuShown, NotPostUrl(true)], [], Session(answers, pos + 2, lib, made))
      else if pos + 3 >= |answers| then Run([MenuShown, QualityPrompt], [], EndOfInput)
      else
        var attempt := DownloadVideo(url, FolderOr(answers[pos + 3]), QualityFor(answers[pos + 2]), lib.download(made));
        Prepend([MenuShown, QualityPrompt] + attempt.out, [attempt.call], Session(answers, pos + 4, lib, made + 1))
  }

  /** Option "2" read at `pos` (twitter_downloader.py:149-154). */
  ghost function InfoSession(answers: seq<string>, pos: nat, lib: Library, made: nat): Run
    requires pos < |answers|
    decreases |answers| - pos, 0
  {
    if pos + 1 == |answers| then Run([MenuShown], [], EndOfInput)
    else
      var url := answers[pos + 1];
      if !IsValidUrl(url) then Prepend([MenuShown, NotPostUrl(false)], [], Session(answers, pos + 2, lib, made))
      else Prepend([MenuShown] + InfoReport(lib.extract(made)), [Extract(url)], Session(answers, pos + 2, lib, made + 1))
  }

  /** Option "3" read at `pos` (twitter_downloader.py:156-171): collect up to
    * the sentinel; with no URL kept, back to the menu. */
  ghost function BatchSession(answers: seq<string>, pos: nat, lib: Library, made: nat): Run
    requires pos < |answers|
    decreases |answers| - pos, 0
  {
    var rest := answers[pos + 1..];
    var seen := rest[..SentinelAt(rest)];
    var head := [MenuShown, BatchIntro] + Notices(OmittedCount(seen));
    if SentinelAt(rest) == |rest| then Run(head, [], EndOfInput)
    else if Kept(seen) == [] then Prepend(head + [NoValidUrls], [], Session(answers, pos + 1 + SentinelAt(rest) + 1, lib, made))
    else Prepend(head, [], BatchDownloads(answers, pos + 1 + SentinelAt(rest) + 1, lib, made, Kept(seen)))
  }

  /** The rest of option "3" once `urls` were kept and the folder question
    * is read at `pos` (twitter_downloader.py:172-176). */
  ghost function BatchDownloads(answers: seq<string>, pos: nat, lib: Library, made: nat, urls: seq<string>): Run
    requires pos <= |answers|
    decreases |answers| - pos, 0
  {
    if pos == |answers| then Run([], [], EndOfInput)
    else
      var folder := FolderOr(answers[pos]);
      Prepend([BatchStart(|urls|)] + BatchOutput(urls, folder, lib, made, |urls|),
              BatchCalls(urls, folder, |urls|), Session(answers, pos + 1, lib, made + |urls|))
  }

  /** `menu_interactivo`: the banner, then the menu loop. */
  ghost function Menu(answers: seq<string>, lib: Library): Run {
    Prepend([Banner], [], Session(answers, 0, lib, 0))
  }

  /** `run` is the pass `t` followed, when the pass goes back to the menu, by
    * the session from where it stopped reading. */
  ghost predicate Begins(run: Run, t: Turn, answers: seq<string>, lib: Library, made: nat) {
    t.next <= |answers| &&
    match t.outcome
    case Stop => run == Run(t.out, t.calls, Exited)
    case OutOfInput => run == Run(t.out, t.calls, EndOfInput)
    case Continue => run == Prepend(t.out, t.calls, Session(answers, t.next, lib, made + |t.calls|))
  }

  /** Option "1" as the program runs it. */
  method RunSingle(answers: seq<string>, pos: nat, lib: Library, made: nat) returns (t: Turn)
    requires pos < |answers|
    ensures Begins(SingleSession(answers, pos, lib, made), t, answers, lib, made)
    ensures t.outcome != Stop && (t.outcome == Continue ==> pos < t.next)
    ensures t.calls != [] <==> pos + 3 < |answers| && IsValidUrl(answers[pos + 1])
  {
    if pos + 1 == |answers| {
      return Turn([MenuShown], [], pos + 1, OutOfInput);
    }
    var url := answers[pos + 1];
    if !IsValidUrl(url) {
      return Turn([MenuShown, NotPostUrl(true)], [], pos + 2, Continue);
    }
    if pos + 3 >= |answers| {
      return Turn([MenuShown, QualityPrompt], [], |answers|, OutOfInput);
    }
    var quality := QualityFor(answers[pos + 2]);
    var folder := FolderOr(answers[pos + 3]);
    var attempt := DownloadVideo(url, folder, quality, lib.download(made));
    t := Turn([MenuShown, QualityPrompt] + attempt.out, [attempt.call], pos + 4, Continue);
  }

  /** Option "2" as the program runs it. */
  method RunInfo(answers: seq<string>, pos: nat, lib: Library, made: nat) returns (t: Turn)
    requires pos < |answers|
    ensures Begins(InfoSession(answers, pos, lib, made), t, answers, lib, made)
    ensures t.outcome != Stop && (t.outcome == Continue ==> pos < t.next)
  {
    if pos + 1 == |answers| {
      return Turn([MenuShown], [], pos + 1, OutOfInput);
    }
    var url := answers[pos + 1];
    if !IsValidUrl(url) {
      return Turn([MenuShown, NotPostUrl(false)], [], pos + 2, Continue);
    }
    var out := ShowInfo(lib.extract(made));
    t := Turn([MenuShown] + out, [Extract(url)], pos + 2, Continue);
  }

  /** What the collection loop of option "3" returns when it reads the
    * answers after the option read at `pos`. */
  ghost predicate Collected(answers: seq<string>, pos: nat, urls: seq<string>, notices: seq<Event>, consumed: nat, finished: bool)
    requires pos < |answers|
  {
    var rest := answers[pos + 1..];
    (finished <==> SentinelAt(rest) < |rest|) &&
    consumed == (if finished then SentinelAt(rest) + 1 else |rest|) &&
    urls == Kept(rest[..SentinelAt(rest)]) &&
    notices == Notices(OmittedCount(rest[..SentinelAt(rest)]))
  }

  /** The collection loop of option "3", on the answers after the option. */
  method CollectBatch(answers: seq<string>, pos: nat)
    returns (urls: seq<string>, notices: seq<Event>, consumed: nat, finished: bool)
    requires pos < |answers|
    ensures Collected(answers, pos, urls, notices, consumed, finished)
    ensures pos + 1 + consumed <= |answers|
    ensures finished ==> consumed > 0
  {
    urls, notices, consumed, finished := CollectUrls(answers[pos + 1..]);
  }

  /** Option "3" as the program runs it: the collection loop, then the
    * download loop. */
  method RunBatch(answers: seq<string>, pos: nat, lib: Library, made: nat) returns (t: Turn)
    requires pos < |answers|
    ensures Begins(BatchSession(answers, pos, lib, made), t, answers, lib, made)
    ensures t.outcome != Stop && (t.outcome == Continue ==> pos < t.next)
  {
    var urls, notices, consumed, finished := CollectBatch(answers, pos);
    if !finished {
      t := BatchOutOfInput(answers, pos, lib, made, urls, notices, consumed);
    } else if urls == [] {
      t := BatchNothingKept(answers, pos, lib, made, notices, consumed);
    } else {
      t := BatchDownload(answers, pos, lib, made, urls, notices, consumed);
    }
  }

  /** Input ran out before the sentinel. */
  method BatchOutOfInput(answers: seq<string>, pos: nat, lib: Library, made: nat,
                         urls: seq<string>, notices: seq<Event>, consumed: nat) returns (t: Turn)
    requires pos < |answers|
    requires Collected(answers, pos, urls, notices, consumed, false)
    ensures Begins(BatchSession(answers, pos, lib, made), t, answers, lib, made)
    ensures t.outcome == OutOfInput
  {
    t := Turn([MenuShown, BatchIntro] + notices, [], |answers|, OutOfInput);
  }

  /** The sentinel came before any valid URL: "No se ingresaron URLs
    * válidas." and back to the menu. */
  method BatchNothingKept(answers: seq<string>, pos: nat, lib: Library, made: nat,
                          notices: seq<Event>, consumed: nat) returns (t: Turn)
    requires pos < |answers|
    requires Collected(answers, pos, [], notices, consumed, true)
    ensures Begins(BatchSession(answers, pos, lib, made), t, answers, lib, made)
    ensures t.outcome == Continue && pos < t.next
  {
    t := Turn([MenuShown, BatchIntro] + notices + [NoValidUrls], [], pos + 1 + consumed, Continue);
  }

  /** Some URLs were kept: the folder question and the download loop. */
  method BatchDownload(answers: seq<string>, pos: nat, lib: Library, made: nat,
                       urls: seq<string>, notices: seq<Event>, consumed: nat) returns (t: Turn)
    requires pos < |answers| && urls != []
    requires Collected(answers, pos, urls, notices, consumed, true)
    ensures Begins(BatchSession(answers, pos, lib, made), t, answers, lib, made)
    ensures t.outcome != Stop && (t.outcome == Continue ==> pos < t.next)
  {
    var head := [MenuShown, BatchIntro] + notices;
    assert pos + 1 + consumed <= |answers|;
    t := RunDownloads(answers, pos + 1 + consumed, lib, made, urls, head);
    KeptThenDownloads(answers, pos, lib, made, urls, notices, consumed, t);
  }

  /** With URLs kept, option "3" is the collection output followed by the
    * folder question and the download loop: a pass that begins the latter
    * after that output begins the whole option. */
  lemma KeptThenDownloads(answers: seq<string>, pos: nat, lib: Library, made: nat,
                          urls: seq<string>, notices: seq<Event>, consumed: nat, t: Turn)
    requires pos < |answers| && urls != []
    requires Collected(answers, pos, urls, notices, consumed, true)
    requires pos + 1 + consumed <= |answers|
    requires Begins(Prepend([MenuShown, BatchIntro] + notices, [], BatchDownloads(answers, pos + 1 + consumed, lib, made, urls)),
                    t, answers, lib, made)
    ensures Begins(BatchSession(answers, pos, lib, made), t, answers, lib, made)
  {
  }

  /** The folder question and the download loop of option "3", after
    * `head` was printed. */
  method RunDownloads(answers: seq<string>, pos: nat, lib: Library, made: nat, urls: seq<string>, head: seq<Event>)
    returns (t: Turn)
    requires pos <= |answers|
    ensures Begins(Prepend(head, [], BatchDownloads(answers, pos, lib, made, urls)), t, answers, lib, made)
    ensures t.outcome != Stop && (t.outcome == Continue ==> pos < t.next)
  {
    if pos == |answers| {
      assert head + [] == head;
      return Turn(head, [], pos, OutOfInput);
    }
    var folder := FolderOr(answers[pos]);
    var out, calls := DownloadAll(urls, folder, lib, made);
    BatchCallsInOrder(urls, folder, |urls|);
    var rest := Session(answers, pos + 1, lib, made + |urls|);
    PrependTwice(head, [], [BatchStart(|urls|)] + out, calls, rest);
    t := Turn(head + ([BatchStart(|urls|)] + out), calls, pos + 1, Continue);
  }

  /** One pass of the menu loop as the program runs it. */
  method HandleOption(answers: seq<string>, pos: nat, lib: Library, made: nat) returns (t: Turn)
    requires pos <= |answers|
    ensures Begins(Session(answers, pos, lib, made), t, answers, lib, made)
    ensures t.outcome == Continue ==> pos < t.next
  {
    if pos == |answers| {
      return Turn([MenuShown], [], pos, OutOfInput);
    }
    match Dispatch(answers[pos]) {
      case Exit => t := Turn([MenuShown, Goodbye], [], pos + 1, Stop);
      case Single => t := RunSingle(answers, pos, lib, made);
      case Info => t := RunInfo(answers, pos, lib, made);
      case Many => t := RunBatch(answers, pos, lib, made);
      case Unknown => t := Turn([MenuShown, InvalidOption], [], pos + 1, Continue);
    }
  }

  lemma PrependTwice(out: seq<Event>, calls: seq<Call>, out': seq<Event>, calls': seq<Call>, run: Run)
    ensures Prepend(out, calls, Prepend(out', calls', run)) == Prepend(out + out', calls + calls', run)
  {
    assert out + (out' + run.out) == (out + out') + run.out;
    assert calls + (calls' + run.calls) == (calls + calls') + run.calls;
  }

  /** What one pass of the loop adds to what was printed and called before
    * it, seen from the whole session. */
  lemma MenuStep(out: seq<Event>, calls: seq<Call>, t: Turn, here: Run, there: Run)
    requires t.outcome == Continue ==> here == Prepend(t.out, t.calls, there)
    requires t.outcome == Stop ==> here == Run(t.out, t.calls, Exited)
    requires t.outcome == OutOfInput ==> here == Run(t.out, t.calls, EndOfInput)
    ensures t.outcome == Continue ==> Prepend(out + t.out, calls + t.calls, there) == Prepend(out, calls, here)
    ensures t.outcome == Stop ==> Run(out + t.out, calls + t.calls, Exited) == Prepend(out, calls, here)
    ensures t.outcome == OutOfInput ==> Run(out + t.out, calls + t.calls, EndOfInput) == Prepend(out, calls, here)
  {
    if t.outcome == Continue {
      PrependTwice(out, calls, t.out, t.calls, there);
    } else {
      assert t.out + [] == t.out && t.calls + [] == t.calls;
      PrependTwice(out, calls, t.out, t.calls, Run([], [], here.end));
    }
  }

  /** `menu_interactivo` over the stripped answers: the `while True` loop. */
  method MenuInteractive(answers: seq<string>, lib: Library) returns (out: seq<Event>, calls: seq<Call>, end: Ending)
    ensures Run(out, calls, end) == Menu(answers, lib)
  {
    out, calls, end := [Banner], [], EndOfInput;
    var pos := 0;
    while true
      invariant pos <= |answers|
      invariant Prepend(out, calls, Session(answers, pos, lib, |calls|)) == Menu(answers, lib)
      decreases |answers| - pos
    {
      var t := HandleOption(answers, pos, lib, |calls|);
      MenuStep(out, calls, t, Session(answers, pos, lib, |calls|), Session(answers, t.next, lib, |calls| + |t.calls|));
      out, calls := out + t.out, calls + t.calls;
      if t.outcome == Stop {
        end := Exited;
        break;
      }
      if t.outcome == OutOfInput {
        end := EndOfInput;
        break;
      }
      pos := t.next;
    }
  }

  /** The folder `main` uses: `sys.argv[2]` when given, as typed. */
  function CliFolder(argv: seq<string>): string {
    if |argv| > 2 then argv[2] else DefaultFolder
  }

  /** The quality `main` uses: `sys.argv[3]` when given. */
  function CliQuality(argv: seq<string>): string {
    if |argv| > 3 then argv[3] else DefaultQuality
  }

  /** `main` (twitter_downloader.py:182-197): with a URL on the command line,
    * one download or the usage message; without, the interactive menu over
    * the typed lines. `argv[0]` is the program name. */
  method RunProgram(argv: seq<string>, lines: seq<string>, lib: Library) returns (out: seq<Event>, calls: seq<Call>, end: Ending)
    ensures |argv| > 1 && IsValidUrl(argv[1]) ==>
      end == Exited &&
      calls == [Download(argv[1], FormatFor(CliQuality(argv)), CliFolder(argv))] &&
      out == DownloadVideo(argv[1], CliFolder(argv), CliQuality(argv), lib.download(0)).out
    ensures |argv| > 1 && !IsValidUrl(argv[1]) ==> out == [Usage] && calls == [] && end == Exited
    ensures |argv| <= 1 ==> Run(out, calls, end) == Menu(StripAll(lines), lib)
  {
    if |argv| > 1 {
      var url := argv[1];
      var folder := if |argv| > 2 then argv[2] else DefaultFolder;
      var quality := if |argv| > 3 then argv[3] else DefaultQuality;
      if IsValidUrl(url) {
        var attempt := DownloadVideo(url, folder, quality, lib.download(0));
        out, calls, end := attempt.out, [attempt.call], Exited;
      } else {
        out, calls, end := [Usage], [], Exited;
      }
    } else {
      out, calls, end := MenuInteractive(StripAll(lines), lib);
    }
  }
}
