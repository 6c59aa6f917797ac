/** The post-URL gate `es_url_valida`: Python's
  *   re.match(r"https?://(www\.)?(twitter\.com|x\.com)/.+/status/\d+", url)
  * which anchors the pattern at the start of the string only. `.` matches any
  * character except a newline; `\d` is modelled as an ASCII digit. */
module UrlPattern {

  predicate IsDigit(c: char) {
    '0' <= c <= '9'
  }

  predicate StartsWith(s: string, prefix: string) {
    |prefix| <= |s| && s[..|prefix|] == prefix
  }

  // ---------------------------------------------------------------------
  // The shape, stated declaratively: one predicate per part of the pattern.
  // ---------------------------------------------------------------------

  /** `https?://` */
  predicate IsScheme(p: string) {
    p == "http://" || p == "https://"
  }

  /** `(www\.)?` */
  predicate IsWww(p: string) {
    p == "" || p == "www."
  }

  /** `(twitter\.com|x\.com)` */
  predicate IsHost(p: string) {
    p == "twitter.com" || p == "x.com"
  }

  /** `.+`: at least one character, none of them a newline. */
  predicate IsSegment(p: string) {
    |p| > 0 && NoNewline(p)
  }

  predicate NoNewline(p: string) {
    forall k :: 0 <= k < |p| ==> p[k] != '\n'
  }

  /** `\d+` */
  predicate IsId(p: string) {
    |p| > 0 && forall k :: 0 <= k < |p| ==> IsDigit(p[k])
  }

  /** `url` begins with a post URL; `rest` is whatever follows the status id,
    * which the start-anchored match leaves unexamined. */
  ghost predicate MatchesPattern(url: string) {
    exists scheme, www, host, path, id, rest ::
      IsScheme(scheme) && IsWww(www) && IsHost(host) && IsSegment(path) && IsId(id) &&
      url == scheme + www + host + "/" + path + "/status/" + id + rest
  }

  /** The part after the host's `/`: `.+/status/\d+` followed by anything. */
  ghost predicate TailMatches(t: string) {
    exists path, id, rest :: IsSegment(path) && IsId(id) && t == path + "/status/" + id + rest
  }

  // ---------------------------------------------------------------------
  // The matcher. Each function is one stage of the regular expression and
  // tries the alternatives in the order the backtracking matcher does.
  // ---------------------------------------------------------------------

  /** `es_url_valida(url)` */
  function IsValidUrl(url: string): bool {
    if StartsWith(url, "https://") then AfterScheme(url[8..])
    else if StartsWith(url, "http://") then AfterScheme(url[7..])
    else false
  }

  /** `(www\.)?(twitter\.com|x\.com)/.+/status/\d+` at the start of `t`. */
  function AfterScheme(t: string): bool {
    (StartsWith(t, "www.") && AfterWww(t[4..])) || AfterWww(t)
  }

  /** `(twitter\.com|x\.com)/.+/status/\d+` at the start of `t`. */
  function AfterWww(t: string): bool {
    (StartsWith(t, "twitter.com/") && AfterHost(t[12..])) ||
    (StartsWith(t, "x.com/") && AfterHost(t[6..]))
  }

  /** `.+/status/\d+` at the start of `t`. */
  function AfterHost(t: string): bool {
    |t| > 0 && t[0] != '\n' && ScanForStatus(t[1..])
  }

  // `.*` then `/status/\d+` at the start of `t`: some newline-free stretch,
  // then `/status/` and a digit (one digit is enough: `\d+` needs no more,
  // and nothing after it is examined).
  function ScanForStatus(t: string): bool
    decreases |t|
  {
    StatusAt(t) || (|t| > 0 && t[0] != '\n' && ScanForStatus(t[1..]))
  }

  predicate StatusAt(t: string) {
    StartsWith(t, "/status/") && |t| > 8 && IsDigit(t[8])
  }

  // ---------------------------------------------------------------------
  // The matcher accepts exactly the strings that begin with the shape.
  // ---------------------------------------------------------------------

  lemma {:induction false} ScanSound(seen: string, t: string)
    requires NoNewline(seen) && |seen| > 0 && ScanForStatus(t)
    ensures TailMatches(seen + t)
    decreases |t|
  {
    if StatusAt(t) {
      var id, rest := t[8..9], t[9..];
      assert t == "/status/" + id + rest;
      assert seen + t == seen + "/status/" + id + rest;
    } else {
      ScanSound(seen + [t[0]], t[1..]);
      assert seen + [t[0]] + t[1..] == seen + t;
    }
  }

  lemma {:induction false} ScanComplete(path: string, tail: string)
    requires NoNewline(path) && StatusAt(tail)
    ensures ScanForStatus(path + tail)
    decreases |path|
  {
    if path == [] {
      assert path + tail == tail;
    } else {
      assert (path + tail)[1..] == path[1..] + tail;
      ScanComplete(path[1..], tail);
    }
  }

  /** `/status/` and a non-empty id. */
  lemma StatusIdAt(id: string, rest: string)
    requires IsId(id)
    ensures StatusAt("/status/" + id + rest)
  {
    var tail := "/status/" + id + rest;
    assert tail[..8] == "/status/";
    assert tail[8] == id[0];
  }

  lemma AfterHostMatches(t: string)
    ensures AfterHost(t) <==> TailMatches(t)
  {
    if AfterHost(t) {
      ScanSound(t[..1], t[1..]);
      assert t[..1] + t[1..] == t;
    }
    if TailMatches(t) {
      var path, id, rest :| IsSegment(path) && IsId(id) && t == path + "/status/" + id + rest;
      var tail := "/status/" + id + rest;
      assert t == path + tail;
      assert t[1..] == path[1..] + tail;
      StatusIdAt(id, rest);
      ScanComplete(path[1..], tail);
    }
  }

  /** `(twitter\.com|x\.com)/` followed by a matching tail. */
  ghost predicate HostMatches(t: string) {
    exists host, tail :: IsHost(host) && TailMatches(tail) && t == host + "/" + tail
  }

  /** `(www\.)?` followed by a matching host part. */
  ghost predicate WwwMatches(t: string) {
    exists www, u :: IsWww(www) && HostMatches(u) && t == www + u
  }

  lemma AfterWwwMatches(t: string)
    ensures AfterWww(t) <==> HostMatches(t)
  {
    if AfterWww(t) {
      AfterWwwHost(t);
    }
    if HostMatches(t) {
      HostAfterWww(t);
    }
  }

  lemma AfterWwwHost(t: string)
    requires AfterWww(t)
    ensures HostMatches(t)
  {
    if StartsWith(t, "twitter.com/") && AfterHost(t[12..]) {
      AfterHostMatches(t[12..]);
      assert t == "twitter.com" + "/" + t[12..];
    } else {
      AfterHostMatches(t[6..]);
      assert t == "x.com" + "/" + t[6..];
    }
  }

  lemma HostAfterWww(t: string)
    requires HostMatches(t)
    ensures AfterWww(t)
  {
    var host, tail :| IsHost(host) && TailMatches(tail) && t == host + "/" + tail;
    AfterHostMatches(tail);
    if host == "twitter.com" {
      assert t[..12] == "twitter.com/" && t[12..] == tail;
    } else {
      assert t[..6] == "x.com/" && t[6..] == tail;
    }
  }

  lemma AfterSchemeMatches(t: string)
    ensures AfterScheme(t) <==> WwwMatches(t)
  {
    AfterWwwMatches(t);
    AfterWwwMatches(t[if |t| >= 4 then 4 else 0..]);
    if AfterScheme(t) {
      if StartsWith(t, "www.") && AfterWww(t[4..]) {
        assert t == "www." + t[4..];
      } else {
        assert t == "" + t;
      }
    }
    if WwwMatches(t) {
      var www, u :| IsWww(www) && HostMatches(u) && t == www + u;
      if www == "www." {
        assert t[..4] == "www." && t[4..] == u;
      } else {
        assert t == u;
      }
    }
  }

  /** The layered shape, one stage at a time: scheme, `www.`, host, tail. */
  ghost predicate StagesMatch(url: string) {
    exists scheme, u :: IsScheme(scheme) && WwwMatches(u) && url == scheme + u
  }

  lemma IsValidUrlStages(url: string)
    ensures IsValidUrl(url) <==> StagesMatch(url)
  {
    if IsValidUrl(url) {
      ValidUrlHasStages(url);
    }
    if StagesMatch(url) {
      var scheme, u :| IsScheme(scheme) && WwwMatches(u) && url == scheme + u;
      AfterSchemeMatches(u);
      StagesMakeValidUrl(url, scheme, u);
    }
  }

  lemma ValidUrlHasStages(url: string)
    requires IsValidUrl(url)
    ensures StagesMatch(url)
  {
    if StartsWith(url, "https://") {
      AfterSchemeMatches(url[8..]);
      assert url == "https://" + url[8..];
    } else {
      AfterSchemeMatches(url[7..]);
      assert url == "http://" + url[7..];
    }
  }

  lemma StagesMakeValidUrl(url: string, scheme: string, u: string)
    requires IsScheme(scheme) && AfterScheme(u) && url == scheme + u
    ensures IsValidUrl(url)
  {
    if scheme == "https://" {
      assert url[..8] == "https://" && url[8..] == u;
    } else {
      assert url[..7] == "http://" && url[7..] == u;
      assert url[4] == ':' && "https://"[4] == 's';
      assert !StartsWith(url, "https://");
    }
  }

  lemma StagesFlatten(url: string)
    ensures StagesMatch(url) <==> MatchesPattern(url)
  {
    if StagesMatch(url) {
      StagesGiveParts(url);
    }
    if MatchesPattern(url) {
      var scheme, www, host, path, id, rest :|
        IsScheme(scheme) && IsWww(www) && IsHost(host) && IsSegment(path) && IsId(id) &&
        url == scheme + www + host + "/" + path + "/status/" + id + rest;
      PartsGiveStages(url, scheme, www, host, path, id, rest);
    }
  }

  lemma StagesGiveParts(url: string)
    requires StagesMatch(url)
    ensures MatchesPattern(url)
  {
    var scheme, u :| IsScheme(scheme) && WwwMatches(u) && url == scheme + u;
    var www, v :| IsWww(www) && HostMatches(v) && u == www + v;
    var host, tail :| IsHost(host) && TailMatches(tail) && v == host + "/" + tail;
    var path, id, rest :| IsSegment(path) && IsId(id) && tail == path + "/status/" + id + rest;
    FlatConcat(url, scheme, www, host, path, id, rest);
  }

  lemma PartsGiveStages(url: string, scheme: string, www: string, host: string, path: string, id: string, rest: string)
    requires IsScheme(scheme) && IsWww(www) && IsHost(host) && IsSegment(path) && IsId(id)
    requires url == scheme + www + host + "/" + path + "/status/" + id + rest
    ensures StagesMatch(url)
  {
    FlatConcat(url, scheme, www, host, path, id, rest);
    var tail := path + "/status/" + id + rest;
    assert TailMatches(tail);
    var v := host + "/" + tail;
    assert HostMatches(v);
    var u := www + v;
    assert WwwMatches(u);
  }

  /** Regrouping the parts of a URL around its stages. */
  lemma FlatConcat(url: string, scheme: string, www: string, host: string, path: string, id: string, rest: string)
    ensures url == scheme + www + host + "/" + path + "/status/" + id + rest
       <==> url == scheme + (www + (host + "/" + (path + "/status/" + id + rest)))
  {
    var tail := path + "/status/" + id + rest;
    assert scheme + www + host + "/" + path + "/status/" + id + rest == scheme + www + host + "/" + tail;
    assert scheme + www + host + "/" + tail == scheme + (www + (host + "/" + tail));
  }

  /** `es_url_valida(url)` holds exactly when `url` begins with
    * http:// or https://, an optional www., twitter.com or x.com, a slash,
    * one or more characters other than a newline, /status/ and one or more
    * digits; anything may follow the digits. */
  lemma IsValidUrlMeansPattern(url: string)
    ensures IsValidUrl(url) <==> MatchesPattern(url)
  {
    IsValidUrlStages(url);
    StagesFlatten(url);
  }

  /** Every accepted URL contains `/status/` followed by a digit. */
  lemma ValidUrlHasStatusId(url: string)
    requires IsValidUrl(url)
    ensures exists i :: 0 < i <= |url| && StatusAt(url[i..])
  {
    IsValidUrlMeansPattern(url);
    var scheme, www, host, path, id, rest :|
      IsScheme(scheme) && IsWww(www) && IsHost(host) && IsSegment(path) && IsId(id) &&
      url == scheme + www + host + "/" + path + "/status/" + id + rest;
    var i := |scheme + www + host + "/" + path|;
    assert url[i..] == "/status/" + id + rest;
    assert StatusAt(url[i..]);
  }

  /** A URL with no `/status/` followed by a digit is rejected, whatever
    * else it contains. */
  lemma NoStatusIdRejected(url: string)
    requires forall i :: 0 < i <= |url| ==> !StatusAt(url[i..])
    ensures !IsValidUrl(url)
  {
    if IsValidUrl(url) {
      ValidUrlHasStatusId(url);
    }
  }

  /** Eight characters or fewer cannot hold `/status/` and a digit. */
  lemma {:induction false} ShortScanFails(t: string)
    requires |t| <= 8
    ensures !ScanForStatus(t)
    decreases |t|
  {
    if |t| > 0 {
      ShortScanFails(t[1..]);
    }
  }
}
