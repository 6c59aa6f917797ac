/** Menu option 3 (twitter_downloader.py:156-176): read URLs one line at a
  * time until the word 'listo', keep the valid ones in order, then download
  * each of them with a progress mark `[i/n]`. */
module Batch {
  import opened Text
  import opened UrlPattern
  import opened Effects
  import opened Tables
  import opened Downloads

  /** `url.lower() == "listo"` on a stripped answer. */
  predicate IsSentinel(answer: string) {
    Lower(answer) == "listo"
  }

  /** The comparison ignores case: the answer is "listo" letter for letter
    * once each letter is lowered. */
  lemma SentinelIgnoresCase(answer: string)
    ensures IsSentinel(answer) <==>
      |answer| == 5 && forall k :: 0 <= k < 5 ==> LowerChar(answer[k]) == "listo"[k]
  {
    if |answer| == 5 && forall k :: 0 <= k < 5 ==> LowerChar(answer[k]) == "listo"[k] {
      assert Lower(answer) == "listo";
    }
  }

  /** A valid URL is never taken for the sentinel, so the order of the two
    * tests in the loop does not matter. */
  lemma ValidUrlNotSentinel(answer: string)
    requires IsValidUrl(answer)
    ensures !IsSentinel(answer)
  {
    assert StartsWith(answer, "https://") || StartsWith(answer, "http://");
    assert answer[0] == 'h';
    assert Lower(answer)[0] == 'h';
  }

  /** The position of the first sentinel answer, or the number of answers
    * when there is none. */
  function SentinelAt(answers: seq<string>): (n: nat)
    ensures n <= |answers|
    decreases |answers|
  {
    if answers == [] || IsSentinel(answers[0]) then 0 else 1 + SentinelAt(answers[1..])
  }

  /** The sentinel position is that of the first sentinel. */
  lemma {:induction false} SentinelIsFirst(answers: seq<string>)
    ensures forall k :: 0 <= k < SentinelAt(answers) ==> !IsSentinel(answers[k])
    ensures SentinelAt(answers) < |answers| ==> IsSentinel(answers[SentinelAt(answers)])
    decreases |answers|
  {
    if answers != [] && !IsSentinel(answers[0]) {
      SentinelIsFirst(answers[1..]);
      forall k | 0 < k < SentinelAt(answers) ensures !IsSentinel(answers[k]) {
        assert answers[k] == answers[1..][k - 1];
      }
    }
  }

  /** The valid URLs among `answers`, in their order. */
  function Kept(answers: seq<string>): seq<string> {
    if answers == [] then []
    else
      var last := answers[|answers| - 1];
      Kept(answers[..|answers| - 1]) + (if IsValidUrl(last) then [last] else [])
  }

  /** How many answers are non-empty and not a valid URL. */
  function OmittedCount(answers: seq<string>): nat {
    if answers == [] then 0
    else
      var last := answers[|answers| - 1];
      OmittedCount(answers[..|answers| - 1]) + (if last != [] && !IsValidUrl(last) then 1 else 0)
  }

  /** How many answers are empty. */
  function BlankCount(answers: seq<string>): nat {
    if answers == [] then 0
    else BlankCount(answers[..|answers| - 1]) + (if answers[|answers| - 1] == [] then 1 else 0)
  }

  /** `n` "URL inválida, omitida." notices. */
  function Notices(n: nat): seq<Event> {
    if n == 0 then [] else Notices(n - 1) + [Omitted]
  }

  /** Keeping distributes over concatenation, so it keeps the valid answers
    * in their original relative order. */
  lemma {:induction false} KeptAppend(a: seq<string>, b: seq<string>)
    ensures Kept(a + b) == Kept(a) + Kept(b)
    decreases |b|
  {
    if b == [] {
      assert a + b == a;
    } else {
      var b' := b[..|b| - 1];
      assert (a + b)[..|a + b| - 1] == a + b';
      KeptAppend(a, b');
    }
  }

  /** Every valid answer is kept, and only those. */
  lemma {:induction false} KeptExactly(answers: seq<string>, u: string)
    ensures u in Kept(answers) <==> u in answers && IsValidUrl(u)
    decreases |answers|
  {
    if answers != [] {
      var init := answers[..|answers| - 1];
      KeptExactly(init, u);
      assert answers == init + [answers[|answers| - 1]];
    }
  }

  /** Each answer is kept, reported as omitted, or blank: exactly one of the
    * three. */
  lemma {:induction false} EveryAnswerAccounted(answers: seq<string>)
    ensures |Kept(answers)| + OmittedCount(answers) + BlankCount(answers) == |answers|
    decreases |answers|
  {
    if answers != [] {
      EveryAnswerAccounted(answers[..|answers| - 1]);
      var last := answers[|answers| - 1];
      if last == [] {
        assert !StartsWith(last, "https://") && !StartsWith(last, "http://");
      }
    }
  }

  /** A blank line changes neither the list nor the notices; an invalid
    * non-empty line adds one notice and no URL. */
  lemma OneMoreAnswer(answers: seq<string>, line: string)
    ensures line == [] ==>
      Kept(answers + [line]) == Kept(answers) && OmittedCount(answers + [line]) == OmittedCount(answers)
    ensures line != [] && !IsValidUrl(line) ==>
      Kept(answers + [line]) == Kept(answers) && OmittedCount(answers + [line]) == OmittedCount(answers) + 1
    ensures IsValidUrl(line) ==>
      Kept(answers + [line]) == Kept(answers) + [line] && OmittedCount(answers + [line]) == OmittedCount(answers)
  {
    assert (answers + [line])[..|answers|] == answers;
    if line == [] {
      assert !StartsWith(line, "https://") && !StartsWith(line, "http://");
    }
  }

  /** Once the sentinel has been read, whatever follows it is never examined:
    * appending answers changes neither where collection stops nor what it
    * collects. */
  lemma AfterSentinelIgnored(answers: seq<string>, extra: seq<string>)
    requires SentinelAt(answers) < |answers|
    ensures SentinelAt(answers + extra) == SentinelAt(answers)
    ensures Kept((answers + extra)[..SentinelAt(answers + extra)]) == Kept(answers[..SentinelAt(answers)])
  {
    var n := SentinelAt(answers);
    SentinelIsFirst(answers);
    SentinelIsFirst(answers + extra);
    assert (answers + extra)[n] == answers[n];
    assert (answers + extra)[..n] == answers[..n];
  }

  /** The collection loop (twitter_downloader.py:158-166) over the stripped
    * answers still to be typed. It stops after the sentinel; when the
    * answers run out first, `input()` would fail and `finished` is false. */
  method CollectUrls(answers: seq<string>) returns (urls: seq<string>, notices: seq<Event>, consumed: nat, finished: bool)
    ensures finished <==> SentinelAt(answers) < |answers|
    ensures consumed == if finished then SentinelAt(answers) + 1 else |answers|
    ensures urls == Kept(answers[..SentinelAt(answers)])
    ensures notices == Notices(OmittedCount(answers[..SentinelAt(answers)]))
  {
    urls, notices, finished := [], [], false;
    SentinelIsFirst(answers);
    var i := 0;
    while i < |answers|
      invariant i <= |answers|
      invariant i <= SentinelAt(answers)
      invariant urls == Kept(answers[..i])
      invariant notices == Notices(OmittedCount(answers[..i]))
    {
      var url := answers[i];
      if Lower(url) == "listo" {
        finished := true;
        break;
      }
      assert answers[..i + 1] == answers[..i] + [url];
      OneMoreAnswer(answers[..i], url);
      if IsValidUrl(url) {
        urls := urls + [url];
      } else if url != [] {
        notices := notices + [Omitted];
      }
      i := i + 1;
    }
    assert i == SentinelAt(answers);
    consumed := if finished then i + 1 else i;
  }

  /** What the download loop prints after the first `k` URLs: for each, the
    * mark `[i/n]` and then what `descargar_video` prints. The i-th download
    * is yt-dlp's call number `made + i`. */
  function BatchOutput(urls: seq<string>, folder: string, lib: Library, made: nat, k: nat): seq<Event>
    requires k <= |urls|
  {
    if k == 0 then []
    else
      BatchOutput(urls, folder, lib, made, k - 1)
      + [Progress(k, |urls|)]
      + DownloadVideo(urls[k - 1], folder, DefaultQuality, lib.download(made + k - 1)).out
  }

  /** The yt-dlp calls of the first `k` downloads: each URL in list order,
    * with the format of the default quality. */
  function BatchCalls(urls: seq<string>, folder: string, k: nat): seq<Call>
    requires k <= |urls|
  {
    if k == 0 then [] else BatchCalls(urls, folder, k - 1) + [Download(urls[k - 1], FormatFor(DefaultQuality), folder)]
  }

  /** The download loop of twitter_downloader.py:174-176: one attempt per URL,
    * in list order, each with the default quality "best". */
  method DownloadAll(urls: seq<string>, folder: string, lib: Library, made: nat) returns (out: seq<Event>, calls: seq<Call>)
    ensures out == BatchOutput(urls, folder, lib, made, |urls|)
    ensures calls == BatchCalls(urls, folder, |urls|)
  {
    out, calls := [], [];
    for i := 0 to |urls|
      invariant out == BatchOutput(urls, folder, lib, made, i)
      invariant calls == BatchCalls(urls, folder, i)
    {
      var attempt := DownloadVideo(urls[i], folder, DefaultQuality, lib.download(made + i));
      out := out + [Progress(i + 1, |urls|)] + attempt.out;
      calls := calls + [attempt.call];
    }
  }

  /** The k-th call downloads the k-th URL into the folder, at format "best". */
  lemma {:induction false} BatchCallsInOrder(urls: seq<string>, folder: string, k: nat)
    requires k <= |urls|
    ensures |BatchCalls(urls, folder, k)| == k
    ensures forall i :: 0 <= i < k ==> BatchCalls(urls, folder, k)[i] == Download(urls[i], "best", folder)
  {
    if k > 0 {
      BatchCallsInOrder(urls, folder, k - 1);
      DefaultFormat();
    }
  }

  /** The download loop prints three events per URL: the mark `[i/n]`, the
    * announcement and the outcome. The marks are `[1/n]`, ..., `[k/n]` in
    * that order, and nothing else printed is a mark, whatever yt-dlp
    * answers. */
  lemma ProgressNumbering(urls: seq<string>, folder: string, lib: Library, made: nat, k: nat)
    requires k <= |urls|
    ensures |BatchOutput(urls, folder, lib, made, k)| == 3 * k
    ensures forall i :: 0 <= i < k ==>
      BatchOutput(urls, folder, lib, made, k)[3 * i] == Progress(i + 1, |urls|) &&
      !BatchOutput(urls, folder, lib, made, k)[3 * i + 1].Progress? &&
      !BatchOutput(urls, folder, lib, made, k)[3 * i + 2].Progress?
  {
    BatchOutputLength(urls, folder, lib, made, k);
    forall i | 0 <= i < k
      ensures BatchOutput(urls, folder, lib, made, k)[3 * i] == Progress(i + 1, |urls|)
      ensures !BatchOutput(urls, folder, lib, made, k)[3 * i + 1].Progress?
      ensures !BatchOutput(urls, folder, lib, made, k)[3 * i + 2].Progress?
    {
      MarkAt(urls, folder, lib, made, k, i);
    }
  }

  /** Each download prints exactly three events. */
  lemma {:induction false} BatchOutputLength(urls: seq<string>, folder: string, lib: Library, made: nat, k: nat)
    requires k <= |urls|
    ensures |BatchOutput(urls, folder, lib, made, k)| == 3 * k
  {
    if k > 0 {
      BatchOutputLength(urls, folder, lib, made, k - 1);
    }
  }

  /** The three events of the i-th download: the mark, then two that are not marks. */
  lemma {:induction false} MarkAt(urls: seq<string>, folder: string, lib: Library, made: nat, k: nat, i: nat)
    requires i < k <= |urls|
    ensures |BatchOutput(urls, folder, lib, made, k)| == 3 * k
    ensures BatchOutput(urls, folder, lib, made, k)[3 * i] == Progress(i + 1, |urls|)
    ensures !BatchOutput(urls, folder, lib, made, k)[3 * i + 1].Progress?
    ensures !BatchOutput(urls, folder, lib, made, k)[3 * i + 2].Progress?
    decreases k
  {
    BatchOutputLength(urls, folder, lib, made, k);
    BatchOutputLength(urls, folder, lib, made, k - 1);
    var before := BatchOutput(urls, folder, lib, made, k - 1);
    var attempt := DownloadVideo(urls[k - 1], folder, DefaultQuality, lib.download(made + k - 1));
    var tail := [Progress(k, |urls|)] + attempt.out;
    var out := BatchOutput(urls, folder, lib, made, k);
    assert out == before + tail;
    if i < k - 1 {
      MarkAt(urls, folder, lib, made, k - 1, i);
      assert out[3 * i] == before[3 * i];
      assert out[3 * i + 1] == before[3 * i + 1];
      assert out[3 * i + 2] == before[3 * i + 2];
    } else {
      assert out[3 * i] == tail[0];
      assert out[3 * i + 1] == tail[1];
      assert out[3 * i + 2] == tail[2];
    }
  }


}
