/** Example URLs for the gate, checked against the matcher. */
module UrlExamples {
  import opened UrlPattern

  /** The twitter.com example, cut into the parts of the pattern. */
  lemma TwitterParts()
    ensures "https://twitter.com/user/status/12345" == "https://" + "" + "twitter.com" + "/" + "user" + "/status/" + "12345" + ""
  {
  }

  lemma ExampleTwitter()
    ensures IsValidUrl("https://twitter.com/user/status/12345")
  {
    var url := "https://twitter.com/user/status/12345";
    TwitterParts();
    assert IsSegment("user") && IsId("12345");
    PartsGiveStages(url, "https://", "", "twitter.com", "user", "12345", "");
    IsValidUrlStages(url);
  }

  /** The x.com example, cut into the parts of the pattern. */
  lemma XParts()
    ensures "https://x.com/42/status/999" == "https://" + "" + "x.com" + "/" + "42" + "/status/" + "999" + ""
  {
  }

  /** The short host, with a numeric user segment. */
  lemma ExampleX()
    ensures IsValidUrl("https://x.com/42/status/999")
  {
    var url := "https://x.com/42/status/999";
    XParts();
    assert IsSegment("42") && IsId("999");
    PartsGiveStages(url, "https://", "", "x.com", "42", "999", "");
    IsValidUrlStages(url);
  }

  /** The example with a query string, cut into the parts of the pattern. */
  lemma TrailingParts()
    ensures "http://www.x.com/user/status/7?s=20" == "http://" + "www." + "x.com" + "/" + "user" + "/status/" + "7" + "?s=20"
  {
  }

  /** The match is anchored at the start only: text after the id is allowed. */
  lemma ExampleTrailing()
    ensures IsValidUrl("http://www.x.com/user/status/7?s=20")
  {
    var url := "http://www.x.com/user/status/7?s=20";
    TrailingParts();
    assert IsSegment("user") && IsId("7");
    PartsGiveStages(url, "http://", "www.", "x.com", "user", "7", "?s=20");
    IsValidUrlStages(url);
  }

  lemma ExampleOtherHost()
    ensures !IsValidUrl("https://example.com/status/1")
  {
    var url := "https://example.com/status/1";
    assert url[..8] == "https://";
    var t := url[8..];
    assert t[0] == 'e';
    assert !StartsWith(t, "www.") && !StartsWith(t, "twitter.com/") && !StartsWith(t, "x.com/");
  }

  /** `\d+` needs a digit right after `/status/`. */
  lemma ExampleNoId()
    ensures !IsValidUrl("https://x.com/user/status/abc")
  {
    var url := "https://x.com/user/status/abc";
    forall i | 0 < i <= |url| ensures !StatusAt(url[i..]) {
      if i + 8 < |url| {
        assert url[i..][8] == url[i + 8];
        assert !IsDigit(url[i + 8]);
      }
    }
    NoStatusIdRejected(url);
  }

  /** `.+` needs at least one character between the host's `/` and `/status/`. */
  lemma ExampleNoPath()
    ensures !IsValidUrl("https://x.com/status/1")
  {
    var url := "https://x.com/status/1";
    assert url[..8] == "https://";
    var t := url[8..];
    assert t[0] == 'x';
    assert !StartsWith(t, "www.") && !StartsWith(t, "twitter.com/");
    assert |t[6..]| == 8;
    ShortScanFails(t[6..][1..]);
    assert !AfterHost(t[6..]);
    assert !AfterWww(t);
  }
}
