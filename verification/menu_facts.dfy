/** What the menu session promises as a whole: only option "0" ends it, an
  * unknown option changes nothing but the error line, every yt-dlp call is
  * for a URL that passed the gate and uses a format from the table, and an
  * empty batch downloads nothing. */
module MenuFacts {
  import opened UrlPattern
  import opened Effects
  import opened Tables
  import opened Downloads
  import opened Batch
  import opened Driver

  /** Option "0" prints the goodbye and ends the session; any answer other
    * than "0" to "3" prints the error and reads the next option. */
  lemma MenuDispatch(answers: seq<string>, pos: nat, lib: Library, made: nat)
    requires pos < |answers|
    ensures answers[pos] == "0" ==> Session(answers, pos, lib, made) == Run([MenuShown, Goodbye], [], Exited)
    ensures answers[pos] !in {"0", "1", "2", "3"} ==>
      Session(answers, pos, lib, made) == Prepend([MenuShown, InvalidOption], [], Session(answers, pos + 1, lib, made))
  {
    DispatchTable(answers[pos]);
  }

  /** The run ends by `break` exactly when it prints the goodbye, and then
    * the goodbye is printed once, right after the menu, as the last event. */
  ghost predicate ClosesOnGoodbye(r: Run) {
    (r.end == Exited <==> Goodbye in r.out) &&
    (Goodbye in r.out ==>
      |r.out| >= 2 && r.out[|r.out| - 2..] == [MenuShown, Goodbye] && Goodbye !in r.out[..|r.out| - 1])
  }

  /** Output without a goodbye in front of a run keeps the property. */
  lemma PrependCloses(head: seq<Event>, calls: seq<Call>, run: Run)
    requires Goodbye !in head && ClosesOnGoodbye(run)
    ensures ClosesOnGoodbye(Prepend(head, calls, run))
  {
    var out := head + run.out;
    assert Goodbye in out <==> Goodbye in run.out;
    if Goodbye in run.out {
      assert out[|out| - 2..] == run.out[|run.out| - 2..];
      assert out[..|out| - 1] == head + run.out[..|run.out| - 1];
    }
  }

  lemma {:induction false} NoticesQuiet(n: nat)
    ensures Goodbye !in Notices(n)
  {
    if n > 0 {
      NoticesQuiet(n - 1);
    }
  }

  lemma DownloadQuiet(url: string, folder: string, quality: string, answer: Fetch)
    ensures Goodbye !in DownloadVideo(url, folder, quality, answer).out
  {
    match answer
    case Fetched(_) =>
    case DownloadError(_) =>
    case OtherError(_) =>
  }

  lemma InfoQuiet(answer: Extraction)
    ensures Goodbye !in InfoReport(answer)
  {
  }

  lemma {:induction false} BatchOutputQuiet(urls: seq<string>, folder: string, lib: Library, made: nat, k: nat)
    requires k <= |urls|
    ensures Goodbye !in BatchOutput(urls, folder, lib, made, k)
  {
    if k > 0 {
      BatchOutputQuiet(urls, folder, lib, made, k - 1);
      DownloadQuiet(urls[k - 1], folder, DefaultQuality, lib.download(made + k - 1));
    }
  }

  /** Only option "0" ends the session (MenuDispatch: it is the only option
    * that prints the goodbye): the session ends by `break` exactly when the
    * goodbye is printed, and nothing follows it. Options "1" to "3" and
    * unknown options print no goodbye and go back to the menu. */
  lemma {:induction false} SessionClosesOnGoodbye(answers: seq<string>, pos: nat, lib: Library, made: nat)
    requires pos <= |answers|
    ensures ClosesOnGoodbye(Session(answers, pos, lib, made))
    decreases |answers| - pos, 1
  {
    if pos < |answers| {
      match Dispatch(answers[pos])
      case Exit =>
        assert [MenuShown, Goodbye][..1] == [MenuShown];
      case Single =>
        SingleClosesOnGoodbye(answers, pos, lib, made);
      case Info =>
        InfoClosesOnGoodbye(answers, pos, lib, made);
      case Many =>
        BatchClosesOnGoodbye(answers, pos, lib, made);
      case Unknown =>
        SessionClosesOnGoodbye(answers, pos + 1, lib, made);
        PrependCloses([MenuShown, InvalidOption], [], Session(answers, pos + 1, lib, made));
    }
  }

  lemma {:induction false} SingleClosesOnGoodbye(answers: seq<string>, pos: nat, lib: Library, made: nat)
    requires pos < |answers|
    ensures ClosesOnGoodbye(SingleSession(answers, pos, lib, made))
    decreases |answers| - pos, 0
  {
    if pos + 1 < |answers| {
      var url := answers[pos + 1];
      if !IsValidUrl(url) {
        SessionClosesOnGoodbye(answers, pos + 2, lib, made);
        PrependCloses([MenuShown, NotPostUrl(true)], [], Session(answers, pos + 2, lib, made));
      } else if pos + 3 < |answers| {
        var attempt := DownloadVideo(url, FolderOr(answers[pos + 3]), QualityFor(answers[pos + 2]), lib.download(made));
        DownloadQuiet(url, FolderOr(answers[pos + 3]), QualityFor(answers[pos + 2]), lib.download(made));
        SessionClosesOnGoodbye(answers, pos + 4, lib, made + 1);
        PrependCloses([MenuShown, QualityPrompt] + attempt.out, [attempt.call], Session(answers, pos + 4, lib, made + 1));
      }
    }
  }

  lemma {:induction false} InfoClosesOnGoodbye(answers: seq<string>, pos: nat, lib: Library, made: nat)
    requires pos < |answers|
    ensures ClosesOnGoodbye(InfoSession(answers, pos, lib, made))
    decreases |answers| - pos, 0
  {
    if pos + 1 < |answers| {
      if !IsValidUrl(answers[pos + 1]) {
        SessionClosesOnGoodbye(answers, pos + 2, lib, made);
        PrependCloses([MenuShown, NotPostUrl(false)], [], Session(answers, pos + 2, lib, made));
      } else {
        InfoQuiet(lib.extract(made));
        SessionClosesOnGoodbye(answers, pos + 2, lib, made + 1);
        PrependCloses([MenuShown] + InfoReport(lib.extract(made)), [Extract(answers[pos + 1])], Session(answers, pos + 2, lib, made + 1));
      }
    }
  }

  lemma {:induction false} BatchClosesOnGoodbye(answers: seq<string>, pos: nat, lib: Library, made: nat)
    requires pos < |answers|
    ensures ClosesOnGoodbye(BatchSession(answers, pos, lib, made))
    decreases |answers| - pos, 0
  {
    var rest := answers[pos + 1..];
    var seen := rest[..SentinelAt(rest)];
    var head := [MenuShown, BatchIntro] + Notices(OmittedCount(seen));
    NoticesQuiet(OmittedCount(seen));
    assert Goodbye !in head;
    if SentinelAt(rest) < |rest| {
      var after := pos + 1 + SentinelAt(rest) + 1;
      if Kept(seen) == [] {
        SessionClosesOnGoodbye(answers, after, lib, made);
        PrependCloses(head + [NoValidUrls], [], Session(answers, after, lib, made));
      } else {
        DownloadsClosesOnGoodbye(answers, after, lib, made, Kept(seen));
        PrependCloses(head, [], BatchDownloads(answers, after, lib, made, Kept(seen)));
      }
    }
  }

  lemma {:induction false} DownloadsClosesOnGoodbye(answers: seq<string>, pos: nat, lib: Library, made: nat, urls: seq<string>)
    requires pos <= |answers|
    ensures ClosesOnGoodbye(BatchDownloads(answers, pos, lib, made, urls))
    decreases |answers| - pos, 0
  {
    if pos < |answers| {
      var folder := FolderOr(answers[pos]);
      BatchOutputQuiet(urls, folder, lib, made, |urls|);
      SessionClosesOnGoodbye(answers, pos + 1, lib, made + |urls|);
      PrependCloses([BatchStart(|urls|)] + BatchOutput(urls, folder, lib, made, |urls|),
                    BatchCalls(urls, folder, |urls|), Session(answers, pos + 1, lib, made + |urls|));
    }
  }

  /** A call the program may make: every URL handed to yt-dlp passed
    * `es_url_valida`, and every download asks for a format of the table. */
  predicate Gated(c: Call) {
    IsValidUrl(c.url) && (c.Download? ==> c.format in FormatTable.Values)
  }

  /** Every yt-dlp call of the session is gated. */
  lemma {:induction false} SessionGated(answers: seq<string>, pos: nat, lib: Library, made: nat)
    requires pos <= |answers|
    ensures forall c :: c in Session(answers, pos, lib, made).calls ==> Gated(c)
    decreases |answers| - pos, 1
  {
    if pos < |answers| {
      match Dispatch(answers[pos])
      case Exit =>
      case Single =>
        SingleGated(answers, pos, lib, made);
      case Info =>
        InfoGated(answers, pos, lib, made);
      case Many =>
        BatchGated(answers, pos, lib, made);
      case Unknown =>
        SessionGated(answers, pos + 1, lib, made);
    }
  }

  lemma {:induction false} SingleGated(answers: seq<string>, pos: nat, lib: Library, made: nat)
    requires pos < |answers|
    ensures forall c :: c in SingleSession(answers, pos, lib, made).calls ==> Gated(c)
    decreases |answers| - pos, 0
  {
    if pos + 1 < |answers| {
      var url := answers[pos + 1];
      if !IsValidUrl(url) {
        SessionGated(answers, pos + 2, lib, made);
      } else if pos + 3 < |answers| {
        SessionGated(answers, pos + 4, lib, made + 1);
        var quality := QualityFor(answers[pos + 2]);
        var folder := FolderOr(answers[pos + 3]);
        DownloadOutcome(url, folder, quality, lib.download(made));
      }
    }
  }

  lemma {:induction false} InfoGated(answers: seq<string>, pos: nat, lib: Library, made: nat)
    requires pos < |answers|
    ensures forall c :: c in InfoSession(answers, pos, lib, made).calls ==> Gated(c)
    decreases |answers| - pos, 0
  {
    if pos + 1 < |answers| {
      SessionGated(answers, pos + 2, lib, made);
      SessionGated(answers, pos + 2, lib, made + 1);
    }
  }

  lemma {:induction false} BatchGated(answers: seq<string>, pos: nat, lib: Library, made: nat)
    requires pos < |answers|
    ensures forall c :: c in BatchSession(answers, pos, lib, made).calls ==> Gated(c)
    decreases |answers| - pos, 0
  {
    var rest := answers[pos + 1..];
    var after := pos + 1 + SentinelAt(rest) + 1;
    if SentinelAt(rest) < |rest| {
      var seen := rest[..SentinelAt(rest)];
      var urls := Kept(seen);
      if urls == [] {
        SessionGated(answers, after, lib, made);
      } else {
        forall u | u in urls ensures IsValidUrl(u) {
          KeptExactly(seen, u);
        }
        DownloadsGated(answers, after, lib, made, urls);
      }
    }
  }

  lemma {:induction false} DownloadsGated(answers: seq<string>, pos: nat, lib: Library, made: nat, urls: seq<string>)
    requires pos <= |answers|
    requires forall u :: u in urls ==> IsValidUrl(u)
    ensures forall c :: c in BatchDownloads(answers, pos, lib, made, urls).calls ==> Gated(c)
    decreases |answers| - pos, 0
  {
    if pos < |answers| {
      SessionGated(answers, pos + 1, lib, made + |urls|);
      var folder := FolderOr(answers[pos]);
      var calls := BatchCalls(urls, folder, |urls|);
      BatchCallsInOrder(urls, folder, |urls|);
      assert "best" in FormatTable.Values by {
        assert FormatTable["best"] == "best";
      }
      forall c | c in calls ensures Gated(c) {
        var i :| 0 <= i < |calls| && calls[i] == c;
        assert c == Download(urls[i], "best", folder);
        assert urls[i] in urls;
      }
    }
  }

  /** Option "3" with no valid URL before "listo" prints "No se ingresaron
    * URLs válidas." and goes back to the menu without calling yt-dlp. */
  lemma EmptyBatchDownloadsNothing(answers: seq<string>, pos: nat, lib: Library, made: nat)
    requires pos < |answers| && answers[pos] == "3"
    requires var rest := answers[pos + 1..];
      SentinelAt(rest) < |rest| && forall u :: u in rest[..SentinelAt(rest)] ==> !IsValidUrl(u)
    ensures var rest := answers[pos + 1..];
      var after := pos + 1 + SentinelAt(rest) + 1;
      Session(answers, pos, lib, made).calls == Session(answers, after, lib, made).calls &&
      NoValidUrls in Session(answers, pos, lib, made).out
  {
    var rest := answers[pos + 1..];
    var seen := rest[..SentinelAt(rest)];
    if Kept(seen) != [] {
      var u := Kept(seen)[0];
      KeptExactly(seen, u);
    }
    var head := [MenuShown, BatchIntro] + Notices(OmittedCount(seen)) + [NoValidUrls];
    assert head[|head| - 1] == NoValidUrls;
  }
}
