/** The checks the upload page runs before it talks to the backend: the file check
    (size, then MIME type), the URL check against the supported platforms, and the
    rendering of a probed duration as minutes and seconds. */
module UploadValidation {
  import opened Wrappers
  import opened Strings

  /** A toast: title, description, and whether it uses the destructive style. */
  datatype Notice = Notice(title: string, description: string, destructive: bool)

  // ---------------------------------------------------------------------------
  // The file check
  // ---------------------------------------------------------------------------

  /** 2 GiB. */
  const MaxUploadBytes: nat := 2 * 1024 * 1024 * 1024

  const AllowedTypes: seq<string> := ["video/mp4", "video/mov", "video/avi", "video/quicktime", "video/x-msvideo"]

  datatype FileCheck = Accepted | TooLarge | InvalidType

  /** `validateFile`: the size is tested before the type, so an oversized file of a wrong
      type is reported as too large. */
  function ValidateFile(size: nat, mime: string): (c: FileCheck)
    ensures c == TooLarge <==> size > MaxUploadBytes
    ensures c == InvalidType <==> size <= MaxUploadBytes && mime !in AllowedTypes
    ensures c == Accepted <==> size <= MaxUploadBytes && mime in AllowedTypes
  {
    if size > MaxUploadBytes then TooLarge
    else if mime !in AllowedTypes then InvalidType
    else Accepted
  }

  /** The toast shown for a rejected file; none for an accepted one. */
  function RejectionNotice(c: FileCheck): (n: Option<Notice>)
    ensures n.None? <==> c == Accepted
    ensures n.Some? ==> n.value.destructive
    ensures c == TooLarge ==> n == Some(Notice("File too large", "Please select a file smaller than 2GB.", true))
    ensures c == InvalidType ==> n == Some(Notice("Invalid file type", "Please select a valid video file (MP4, MOV, AVI).", true))
  {
    match c
    case Accepted => None
    case TooLarge => Some(Notice("File too large", "Please select a file smaller than 2GB.", true))
    case InvalidType => Some(Notice("Invalid file type", "Please select a valid video file (MP4, MOV, AVI).", true))
  }

  /** Exactly 2 GiB passes the size test; one byte more does not. */
  lemma SizeLimitIsInclusive()
    ensures ValidateFile(2147483648, "video/mp4") == Accepted
    ensures ValidateFile(2147483649, "video/mp4") == TooLarge
  {
  }

  /** The label of the uploaded file's format: the upper-cased part of the MIME type after
      the first `/`, or "MP4" when there is no such part or it is empty. */
  function FormatLabel(mime: string): (r: string)
    ensures r != ""
  {
    var parts := SplitOn(mime, '/');
    if |parts| >= 2 && parts[1] != "" then Upper(parts[1]) else "MP4"
  }

  /** The label of a "video/x" type is the upper-cased subtype. */
  lemma FormatLabelOfVideoType(subtype: string)
    requires '/' !in subtype && subtype != ""
    ensures FormatLabel("video/" + subtype) == Upper(subtype)
  {
    assert "video/" + subtype == "video" + ['/'] + subtype;
    SplitOnAfter("video", '/', subtype);
    SplitOnWithout(subtype, '/');
  }

  // ---------------------------------------------------------------------------
  // The URL check
  // ---------------------------------------------------------------------------

  /** The host alternatives of the seven patterns, in pattern order (the first pattern
      accepts two hosts). */
  const Hosts: seq<string> := ["youtube.com", "youtu.be", "tiktok.com", "instagram.com", "twitter.com", "x.com", "vimeo.com", "facebook.com"]

  /** What follows the scheme, when the URL starts with `https://` or `http://`. */
  function AfterScheme(url: string): (r: Option<string>)
    ensures r.Some? ==> |r.value| <= |url| && r.value == url[|url| - |r.value|..]
  {
    if StartsWith(url, "https://") then Some(url[8..])
    else if StartsWith(url, "http://") then Some(url[7..])
    else None
  }

  /** The host, possibly behind `www.`, opens the rest of the URL. */
  predicate HostOpens(rest: string, host: string) {
    StartsWith(rest, host) || StartsWith(rest, "www." + host)
  }

  /** `validateUrl`: some pattern matches, i.e. the URL starts with a scheme, an optional
      `www.` and a supported host. The patterns are prefix matches without the `i` flag:
      nothing after the host is looked at, and letter case matters. */
  predicate ValidateUrl(url: string) {
    match AfterScheme(url)
    case None => false
    case Some(rest) => exists k :: 0 <= k < |Hosts| && HostOpens(rest, Hosts[k])
  }

  const Schemes: seq<string> := ["http://", "https://"]
  const WwwPrefixes: seq<string> := ["", "www."]

  /** The patterns read as a language: scheme, optional `www.`, host, anything. */
  ghost predicate MatchesSomePattern(url: string) {
    exists i, j, k :: 0 <= i < 2 && 0 <= j < 2 && 0 <= k < |Hosts|
      && StartsWith(url, Schemes[i] + WwwPrefixes[j] + Hosts[k])
  }

  /** A URL the check accepts matches one of the patterns. */
  lemma AcceptedUrlMatchesPattern(url: string)
    requires ValidateUrl(url)
    ensures MatchesSomePattern(url)
  {
    var i := SchemeOf(url);
    var rest := url[|Schemes[i]|..];
    var k :| 0 <= k < |Hosts| && HostOpens(rest, Hosts[k]);
    var j := if StartsWith(rest, Hosts[k]) then 0 else 1;
    PatternOfParts(url, i, j, k);
  }

  /** The index of the scheme an accepted URL starts with. */
  lemma SchemeOf(url: string) returns (i: nat)
    requires AfterScheme(url).Some?
    ensures i < 2 && StartsWith(url, Schemes[i]) && AfterScheme(url).value == url[|Schemes[i]|..]
  {
    i := if StartsWith(url, "https://") then 1 else 0;
  }

  /** A scheme, then a rest that opens with the optional `www.` and a host, is a match. */
  lemma PatternOfParts(url: string, i: nat, j: nat, k: nat)
    requires i < 2 && j < 2 && k < |Hosts|
    requires StartsWith(url, Schemes[i])
    requires StartsWith(url[|Schemes[i]|..], WwwPrefixes[j] + Hosts[k])
    ensures MatchesSomePattern(url)
  {
    StartsWithThree(url, Schemes[i], WwwPrefixes[j], Hosts[k]);
  }

  lemma StartsWithThree(s: string, a: string, b: string, c: string)
    requires StartsWith(s, a) && StartsWith(s[|a|..], b + c)
    ensures StartsWith(s, a + b + c)
  {
    StartsWithConcat(s, a, b + c);
    assert a + b + c == a + (b + c);
  }

  /** A URL one of the patterns matches is accepted. */
  lemma MatchingUrlAccepted(url: string, i: nat, j: nat, k: nat)
    requires i < 2 && j < 2 && k < |Hosts|
    requires StartsWith(url, Schemes[i] + WwwPrefixes[j] + Hosts[k])
    ensures ValidateUrl(url)
  {
    StartsWithThreeSplit(url, Schemes[i], WwwPrefixes[j], Hosts[k]);
    var rest := url[|Schemes[i]|..];
    if i == 0 {
      NotStartsWithAt(url, "https://", 4);
    }
    assert AfterScheme(url) == Some(rest);
    assert HostOpens(rest, Hosts[k]) by {
      if j == 0 {
        assert WwwPrefixes[j] + Hosts[k] == Hosts[k];
      }
    }
  }

  lemma StartsWithThreeSplit(s: string, a: string, b: string, c: string)
    requires StartsWith(s, a + b + c)
    ensures StartsWith(s, a) && StartsWith(s[|a|..], b + c)
  {
    assert a + b + c == a + (b + c);
    StartsWithConcat(s, a, b + c);
  }

  /** The check accepts a URL exactly when one of the patterns matches it. */
  lemma ValidateUrlMatchesPatterns(url: string)
    ensures ValidateUrl(url) <==> MatchesSomePattern(url)
  {
    if ValidateUrl(url) {
      AcceptedUrlMatchesPattern(url);
    }
    if MatchesSomePattern(url) {
      var i, j, k :| 0 <= i < 2 && 0 <= j < 2 && 0 <= k < |Hosts|
        && StartsWith(url, Schemes[i] + WwwPrefixes[j] + Hosts[k]);
      MatchingUrlAccepted(url, i, j, k);
    }
  }

  /** A full YouTube watch URL behind `www.` is accepted. */
  lemma YouTubeWatchUrlAccepted()
    ensures ValidateUrl("https://www.youtube.com/watch?v=abc")
  {
    MatchingUrlAccepted("https://www.youtube.com/watch?v=abc", 1, 1, 0);
  }

  /** The host is only a prefix test: a host that merely begins with "x.com" passes. */
  lemma HostPrefixAccepted()
    ensures ValidateUrl("https://x.community")
  {
    MatchingUrlAccepted("https://x.community", 1, 0, 5);
  }

  /** The scheme is case-sensitive. */
  lemma UpperCaseSchemeRejected()
    ensures !ValidateUrl("HTTPS://youtube.com/watch")
  {
    NotStartsWithAt("HTTPS://youtube.com/watch", "https://", 0);
    NotStartsWithAt("HTTPS://youtube.com/watch", "http://", 0);
  }

  /** A leading space is not trimmed before the check. */
  lemma LeadingSpaceRejected()
    ensures !ValidateUrl(" https://youtube.com/watch")
  {
    NotStartsWithAt(" https://youtube.com/watch", "https://", 0);
    NotStartsWithAt(" https://youtube.com/watch", "http://", 0);
  }

  /** The host is case-sensitive. */
  lemma UpperCaseHostRejected()
    ensures !ValidateUrl("https://YouTube.com/watch")
  {
    var rest := "YouTube.com/watch";
    assert AfterScheme("https://YouTube.com/watch") == Some(rest);
    forall k | 0 <= k < |Hosts| ensures !HostOpens(rest, Hosts[k]) {
      assert rest[0] == 'Y';
      assert Hosts[k][0] != 'Y';
    }
  }

  // ---------------------------------------------------------------------------
  // Durations
  // ---------------------------------------------------------------------------

  /** A media element's duration in seconds. */
  type Seconds = r: real | r >= 0.0

  /** `m:ss` for a duration of `d` seconds: whole minutes, then the whole seconds left over,
      zero-padded to two digits. */
  function FormatDuration(d: Seconds): (r: string)
    ensures var parts := SplitOn(r, ':');
      && |parts| == 2 && AllDigits(parts[0]) && AllDigits(parts[1]) && |parts[1]| == 2
      && ParseDigits(parts[1]) < 60
      && ParseDigits(parts[0]) * 60 + ParseDigits(parts[1]) == d.Floor
  {
    var minutes: nat := (d / 60.0).Floor;
    var rest := d - 60.0 * minutes as real;
    assert 0.0 <= rest < 60.0;
    var seconds: nat := rest.Floor;
    assert d.Floor == 60 * minutes + seconds;
    var r := NatToString(minutes) + ":" + Pad2(seconds);
    assert ':' !in NatToString(minutes) && ':' !in Pad2(seconds);
    assert r == NatToString(minutes) + [':'] + Pad2(seconds);
    SplitOnAfter(NatToString(minutes), ':', Pad2(seconds));
    SplitOnWithout(Pad2(seconds), ':');
    r
  }

  /** `getVideoDuration`: the formatted duration, or "0:00" when the metadata cannot be read. */
  function ProbeLabel(probe: Option<Seconds>): (r: string)
    ensures probe.None? ==> r == "0:00"
    ensures probe.Some? ==> r == FormatDuration(probe.value)
  {
    match probe
    case None => "0:00"
    case Some(d) => FormatDuration(d)
  }

  /** 225.7 seconds read as three minutes and 45 seconds. */
  lemma DurationExample()
    ensures FormatDuration(225.7) == "3:45"
  {
    assert (225.7 / 60.0).Floor == 3;
    assert (225.7 - 180.0).Floor == 45;
    assert NatToString(3) == "3";
    assert NatToString(45) == "45";
  }

}
