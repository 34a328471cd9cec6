/** The backend helpers of the video router: clip-window planning for the main and the
    mobile generators, the AI-thumbnail enumeration, the clip listing, the caption
    translation and the import fallback. Every external program (ffprobe, ffmpeg,
    yt-dlp) and every directory listing is an input: the probed duration, whether
    ffmpeg was found, and whether each ffmpeg run exited with status 0. */
module Videos {
  import opened Wrappers
  import opened Strings
  import opened Media

  // ---------------------------------------------------------------------------
  // Recipes
  // ---------------------------------------------------------------------------

  function Min(a: real, b: real): real {
    if a <= b then a else b
  }

  /** One row of a generator's recipe table: ffmpeg is run with `-ss start -t length`. */
  datatype Variant = Variant(title: string, start: real, length: real, aspect: string, platform: string)

  /** The duration used when ffprobe fails or prints no number. */
  const DefaultDuration: real := 60.0

  function ProbedDuration(probe: Option<real>): real {
    probe.GetOr(DefaultDuration)
  }

  /** The three recipes of the main generator for a source of `d` seconds. */
  function MainVariants(d: real): (vs: seq<Variant>)
    ensures |vs| == 3
  {
    [ Variant("Hook Segment", 0.0, Min(15.0, d), "9:16", "TikTok/Instagram Reels"),
      Variant("Product Demo", Min(5.0, d - 10.0), Min(23.0, d - 5.0), "1:1", "Instagram Post"),
      Variant("Customer Testimonial", Min(10.0, d - 15.0), Min(18.0, d - 10.0), "16:9", "YouTube Shorts") ]
  }

  /** The four recipes of the mobile generator, all vertical. */
  function MobileVariants(d: real): (vs: seq<Variant>)
    ensures |vs| == 4
  {
    [ Variant("TikTok Vertical", 0.0, Min(15.0, d), "9:16", "Mobile"),
      Variant("Instagram Reels", Min(5.0, d - 10.0), Min(30.0, d - 5.0), "9:16", "Mobile"),
      Variant("YouTube Shorts", Min(10.0, d - 15.0), Min(60.0, d - 10.0), "9:16", "Mobile"),
      Variant("Instagram Story", Min(15.0, d - 20.0), Min(15.0, d - 15.0), "9:16", "Mobile") ]
  }

  /** Every run succeeds: the oracle under which only the length test skips a recipe. */
  function Always(i: nat): bool {
    true
  }

  /** The recipe indices below `n`, in order, that the generator turns into clips:
      those with a positive length whose encode `ran`. */
  function Kept(vs: seq<Variant>, ran: nat -> bool, n: nat): (ks: seq<nat>)
    requires n <= |vs|
    ensures |ks| <= n
    ensures forall k :: 0 <= k < |ks| ==> ks[k] < n && vs[ks[k]].length > 0.0 && ran(ks[k])
    ensures forall k, l :: 0 <= k < l < |ks| ==> ks[k] < ks[l]
  {
    if n == 0 then []
    else Kept(vs, ran, n - 1) + (if vs[n - 1].length > 0.0 && ran(n - 1) then [n - 1] else [])
  }

  /** Every recipe below `n` with a positive length whose encode ran is kept. */
  lemma {:induction false} KeptComplete(vs: seq<Variant>, ran: nat -> bool, n: nat, i: nat)
    requires n <= |vs| && i < n
    requires vs[i].length > 0.0 && ran(i)
    ensures i in Kept(vs, ran, n)
  {
    KeptStep(vs, ran, n);
    if i < n - 1 {
      KeptComplete(vs, ran, n - 1, i);
    }
  }

  /** One more recipe adds at most its own index. */
  lemma KeptStep(vs: seq<Variant>, ran: nat -> bool, n: nat)
    requires 0 < n <= |vs|
    ensures Kept(vs, ran, n) == Kept(vs, ran, n - 1) + (if vs[n - 1].length > 0.0 && ran(n - 1) then [n - 1] else [])
  {
  }

  /** The first recipe below `n` with a positive length whose encode did not run. */
  function FirstFailure(vs: seq<Variant>, ran: nat -> bool, n: nat): (f: Option<nat>)
    requires n <= |vs|
    ensures f.Some? ==> f.value < n && vs[f.value].length > 0.0 && !ran(f.value)
  {
    if n == 0 then None
    else if FirstFailure(vs, ran, n - 1).Some? then FirstFailure(vs, ran, n - 1)
    else if vs[n - 1].length > 0.0 && !ran(n - 1) then Some(n - 1)
    else None
  }

  // ---------------------------------------------------------------------------
  // Clip records
  // ---------------------------------------------------------------------------

  /** `0:` followed by the whole seconds of the length, zero-padded to two digits. */
  function ClipDuration(length: real): string
    requires length > 0.0
  {
    "0:" + Pad2(length.Floor as nat)
  }

  function MainClipId(pid: string, idx: nat): string {
    pid + "-clip-" + NatToString(idx)
  }

  function MobileClipId(pid: string, idx: nat): string {
    pid + "-mobile-" + NatToString(idx)
  }

  function ThumbnailUrl(pid: string, name: string): string {
    "/api/thumbnails/" + pid + "/" + name
  }

  /** The record the main generator appends for recipe `idx`. */
  function MainClip(pid: string, idx: nat, v: Variant): Clip
    requires v.length > 0.0
  {
    Clip(MainClipId(pid, idx), v.title, ClipDuration(v.length), Some(90 - idx),
         MainClipId(pid, idx) + ".mp4", Some("mp4"), v.aspect, v.platform,
         ThumbnailUrl(pid, MainClipId(pid, idx) + ".jpg"))
  }

  /** The record the mobile generator appends for recipe `idx`. */
  function MobileClip(pid: string, idx: nat, v: Variant): Clip
    requires v.length > 0.0
  {
    Clip(MobileClipId(pid, idx), v.title, ClipDuration(v.length), None,
         MobileClipId(pid, idx) + ".mp4", None, v.aspect, "Mobile",
         ThumbnailUrl(pid, MobileClipId(pid, idx) + ".jpg"))
  }

  predicate ValidIndices(vs: seq<Variant>, ks: seq<nat>) {
    forall k :: 0 <= k < |ks| ==> ks[k] < |vs| && vs[ks[k]].length > 0.0
  }

  function MainClips(pid: string, vs: seq<Variant>, ks: seq<nat>): (cs: seq<Clip>)
    requires ValidIndices(vs, ks)
    ensures |cs| == |ks|
  {
    seq(|ks|, k requires 0 <= k < |ks| => MainClip(pid, ks[k], vs[ks[k]]))
  }

  function MobileClips(pid: string, vs: seq<Variant>, ks: seq<nat>): (cs: seq<Clip>)
    requires ValidIndices(vs, ks)
    ensures |cs| == |ks|
  {
    seq(|ks|, k requires 0 <= k < |ks| => MobileClip(pid, ks[k], vs[ks[k]]))
  }

  lemma MainClipsSnoc(pid: string, vs: seq<Variant>, ks: seq<nat>, i: nat)
    requires ValidIndices(vs, ks) && i < |vs| && vs[i].length > 0.0
    ensures ValidIndices(vs, ks + [i])
    ensures MainClips(pid, vs, ks + [i]) == MainClips(pid, vs, ks) + [MainClip(pid, i, vs[i])]
  {
  }

  lemma MobileClipsSnoc(pid: string, vs: seq<Variant>, ks: seq<nat>, i: nat)
    requires ValidIndices(vs, ks) && i < |vs| && vs[i].length > 0.0
    ensures ValidIndices(vs, ks + [i])
    ensures MobileClips(pid, vs, ks + [i]) == MobileClips(pid, vs, ks) + [MobileClip(pid, i, vs[i])]
  {
  }

  // ---------------------------------------------------------------------------
  // The main generator
  // ---------------------------------------------------------------------------

  /** The exceptions a generator raises: the source file is missing, ffmpeg cannot be
      found (both FileNotFoundError), or the encode of one recipe failed (RuntimeError). */
  datatype ClipError = SourceNotFound | FfmpegNotFound | FfmpegFailed(variant: nat)

  /** Running a recipe table: all kept clips, or the error of the first recipe of
      positive length whose encode failed, and no clips at all. */
  function MainRun(pid: string, vs: seq<Variant>, encodes: nat -> bool): Result<seq<Clip>, ClipError> {
    match FirstFailure(vs, encodes, |vs|)
    case Some(i) => Failure(FfmpegFailed(i))
    case None => Success(MainClips(pid, vs, Kept(vs, Always, |vs|)))
  }

  /** What the main generator returns or raises: the source is checked first, then ffmpeg
      is looked up (the lookup raises when no candidate runs), then the recipes run. */
  function MainOutcome(pid: string, sourceExists: bool, ffmpegFound: bool, probe: Option<real>, encodes: nat -> bool)
    : Result<seq<Clip>, ClipError>
  {
    if !sourceExists then Failure(SourceNotFound)
    else if !ffmpegFound then Failure(FfmpegNotFound)
    else MainRun(pid, MainVariants(ProbedDuration(probe)), encodes)
  }

  /** The failure search finds the lowest failed recipe: none exactly when every kept
      recipe below `n` ran. */
  lemma {:induction false} FirstFailureIsFirst(vs: seq<Variant>, ran: nat -> bool, n: nat)
    requires n <= |vs|
    ensures FirstFailure(vs, ran, n).None? <==> forall i :: 0 <= i < n && vs[i].length > 0.0 ==> ran(i)
    ensures FirstFailure(vs, ran, n).Some? ==>
      forall i :: 0 <= i < FirstFailure(vs, ran, n).value && vs[i].length > 0.0 ==> ran(i)
  {
    if n > 0 {
      FirstFailureIsFirst(vs, ran, n - 1);
    }
  }

  /** Skipping a recipe keeps the failure search where it was. */
  lemma FirstFailureStep(vs: seq<Variant>, ran: nat -> bool, n: nat)
    requires n < |vs|
    requires FirstFailure(vs, ran, n).None?
    requires vs[n].length <= 0.0 || ran(n)
    ensures FirstFailure(vs, ran, n + 1).None?
  {
  }

  /** A failure found below `n` stays the first failure below any larger bound. */
  lemma {:induction false} FirstFailureStable(vs: seq<Variant>, ran: nat -> bool, n: nat, m: nat)
    requires n <= m <= |vs|
    requires FirstFailure(vs, ran, n).Some?
    ensures FirstFailure(vs, ran, m) == FirstFailure(vs, ran, n)
    decreases m - n
  {
    if n < m {
      assert FirstFailure(vs, ran, n + 1) == FirstFailure(vs, ran, n);
      FirstFailureStable(vs, ran, n + 1, m);
    }
  }

  /** `_generate_ffmpeg_clips`: the missing source is reported before the ffmpeg lookup,
      and both before any recipe runs. */
  method GenerateFfmpegClips(pid: string, sourceExists: bool, ffmpegFound: bool, probe: Option<real>, encodes: nat -> bool)
    returns (r: Result<seq<Clip>, ClipError>)
    ensures r == MainOutcome(pid, sourceExists, ffmpegFound, probe, encodes)
  {
    if !sourceExists {
      return Failure(SourceNotFound);
    }
    if !ffmpegFound {
      return Failure(FfmpegNotFound);
    }
    r := RunVariants(pid, MainVariants(ProbedDuration(probe)), encodes);
  }

  /** The recipe loop: walks the recipes in order, skips those of non-positive length
      and aborts on the first failed encode. A failed thumbnail extraction is ignored,
      so it does not appear here. */
  method RunVariants(pid: string, variants: seq<Variant>, encodes: nat -> bool)
    returns (r: Result<seq<Clip>, ClipError>)
    ensures r == MainRun(pid, variants, encodes)
  {
    var clips: seq<Clip> := [];
    for idx := 0 to |variants|
      invariant FirstFailure(variants, encodes, idx).None?
      invariant ValidIndices(variants, Kept(variants, Always, idx))
      invariant clips == MainClips(pid, variants, Kept(variants, Always, idx))
    {
      var v := variants[idx];
      if v.length <= 0.0 {
        FirstFailureStep(variants, encodes, idx);
        continue;
      }
      if !encodes(idx) {
        assert FirstFailure(variants, encodes, idx + 1) == Some(idx);
        FirstFailureStable(variants, encodes, idx + 1, |variants|);
        return Failure(FfmpegFailed(idx));
      }
      FirstFailureStep(variants, encodes, idx);
      MainClipsSnoc(pid, variants, Kept(variants, Always, idx), idx);
      clips := clips + [MainClip(pid, idx, v)];
    }
    return Success(clips);
  }

  /** Which recipes of the main generator survive the length test, by source duration:
      they always form a prefix of the table. */
  lemma MainKeptByDuration(d: real)
    ensures Kept(MainVariants(d), Always, 3) ==
      if d <= 0.0 then [] else if d <= 5.0 then [0] else if d <= 10.0 then [0, 1] else [0, 1, 2]
  {
    var vs := MainVariants(d);
    assert Kept(vs, Always, 1) == if d <= 0.0 then [] else [0];
    assert Kept(vs, Always, 2) == Kept(vs, Always, 1) + (if d > 5.0 then [1] else []);
    assert Kept(vs, Always, 3) == Kept(vs, Always, 2) + (if d > 10.0 then [2] else []);
  }

  /** A successful run of the main generator yields at most three clips, in recipe order,
      with distinct ids, each scored 90 minus its recipe index. */
  lemma MainClipsShape(pid: string, sourceExists: bool, ffmpegFound: bool, probe: Option<real>, encodes: nat -> bool)
    requires MainOutcome(pid, sourceExists, ffmpegFound, probe, encodes).Success?
    ensures var cs := MainOutcome(pid, sourceExists, ffmpegFound, probe, encodes).value;
      && |cs| <= 3
      && (forall k :: 0 <= k < |cs| ==> exists i: nat :: i < 3 && cs[k].id == MainClipId(pid, i) && cs[k].score == Some(90 - i))
      && (forall k, l :: 0 <= k < l < |cs| ==> cs[k].id != cs[l].id)
  {
    var vs := MainVariants(ProbedDuration(probe));
    var ks := Kept(vs, Always, 3);
    var cs := MainClips(pid, vs, ks);
    forall k | 0 <= k < |cs|
      ensures exists i: nat :: i < 3 && cs[k].id == MainClipId(pid, i) && cs[k].score == Some(90 - i)
    {
      assert cs[k].id == MainClipId(pid, ks[k]);
    }
    forall k, l | 0 <= k < l < |cs| ensures cs[k].id != cs[l].id {
      MainClipIdInjective(pid, ks[k], ks[l]);
    }
  }

  lemma MainClipIdInjective(pid: string, i: nat, j: nat)
    requires i != j
    ensures MainClipId(pid, i) != MainClipId(pid, j)
  {
    var p := pid + "-clip-";
    assert MainClipId(pid, i)[|p|..] == NatToString(i);
    assert MainClipId(pid, j)[|p|..] == NatToString(j);
    if NatToString(i) == NatToString(j) {
      NatToStringInjective(i, j);
    }
  }

  /** With the default 60-second duration the main generator labels its clips
      0:15, 0:23 and 0:18. */
  lemma DefaultDurationLabels(pid: string)
    ensures var cs := MainClips(pid, MainVariants(DefaultDuration), [0, 1, 2]);
      cs[0].duration == "0:15" && cs[1].duration == "0:23" && cs[2].duration == "0:18"
  {
    assert NatToString(15) == "15";
    assert NatToString(23) == "23";
    assert NatToString(18) == "18";
  }

  // ---------------------------------------------------------------------------
  // The mobile generator
  // ---------------------------------------------------------------------------

  /** What the mobile generator returns: FfmpegNotFound when the ffmpeg lookup raises
      (it precedes the probe), otherwise the kept recipes whose encode succeeded. A
      failed encode only drops its own clip. */
  function MobileOutcome(pid: string, ffmpegFound: bool, probe: Option<real>, encodes: nat -> bool)
    : Result<seq<Clip>, ClipError>
  {
    if !ffmpegFound then Failure(FfmpegNotFound)
    else
      var vs := MobileVariants(ProbedDuration(probe));
      Success(MobileClips(pid, vs, Kept(vs, encodes, 4)))
  }

  /** `_generate_mobile_clips`: walks the four recipes in order, skipping those of
      non-positive length and those whose encode exits non-zero. */
  method GenerateMobileClips(pid: string, ffmpegFound: bool, probe: Option<real>, encodes: nat -> bool)
    returns (r: Result<seq<Clip>, ClipError>)
    ensures r == MobileOutcome(pid, ffmpegFound, probe, encodes)
  {
    if !ffmpegFound {
      return Failure(FfmpegNotFound);
    }
    var variants := MobileVariants(ProbedDuration(probe));
    var clips: seq<Clip> := [];
    for idx := 0 to |variants|
      invariant ValidIndices(variants, Kept(variants, encodes, idx))
      invariant clips == MobileClips(pid, variants, Kept(variants, encodes, idx))
    {
      var v := variants[idx];
      if v.length <= 0.0 {
        continue;
      }
      if !encodes(idx) {
        continue;
      }
      MobileClipsSnoc(pid, variants, Kept(variants, encodes, idx), idx);
      clips := clips + [MobileClip(pid, idx, v)];
    }
    return Success(clips);
  }

  /** The mobile result is a subsequence of the four recipes: at most four clips, in
      recipe order, each vertical and tagged "Mobile", each from a recipe that was kept
      and encoded. */
  lemma MobileClipsShape(pid: string, probe: Option<real>, encodes: nat -> bool)
    ensures var cs := MobileOutcome(pid, true, probe, encodes).value;
      var vs := MobileVariants(ProbedDuration(probe));
      var ks := Kept(vs, encodes, 4);
      && |cs| <= 4
      && (forall k :: 0 <= k < |cs| ==> cs[k].aspect == "9:16" && cs[k].platform == "Mobile")
      && (forall k :: 0 <= k < |cs| ==> encodes(ks[k]) && cs[k] == MobileClip(pid, ks[k], vs[ks[k]]))
      && (forall k, l :: 0 <= k < l < |cs| ==> ks[k] < ks[l])
  {
    var vs := MobileVariants(ProbedDuration(probe));
    var ks := Kept(vs, encodes, 4);
    assert MobileOutcome(pid, true, probe, encodes).value == MobileClips(pid, vs, ks);
    MobileClipsTagged(pid, vs, ks);
  }

  /** Clips cut from vertical recipes are vertical, and every mobile clip is tagged "Mobile". */
  lemma MobileClipsTagged(pid: string, vs: seq<Variant>, ks: seq<nat>)
    requires ValidIndices(vs, ks)
    requires forall i :: 0 <= i < |vs| ==> vs[i].aspect == "9:16"
    ensures forall k :: 0 <= k < |ks| ==>
      MobileClips(pid, vs, ks)[k].aspect == "9:16" && MobileClips(pid, vs, ks)[k].platform == "Mobile"
  {
    var cs := MobileClips(pid, vs, ks);
    forall k | 0 <= k < |ks| ensures cs[k].aspect == "9:16" && cs[k].platform == "Mobile" {
      assert cs[k] == MobileClip(pid, ks[k], vs[ks[k]]);
    }
  }

  /** Which mobile recipes survive the length test, by source duration. */
  lemma MobileKeptByDuration(d: real)
    ensures Kept(MobileVariants(d), Always, 4) ==
      if d <= 0.0 then [] else if d <= 5.0 then [0] else if d <= 10.0 then [0, 1]
      else if d <= 15.0 then [0, 1, 2] else [0, 1, 2, 3]
  {
    var vs := MobileVariants(d);
    assert Kept(vs, Always, 1) == if d <= 0.0 then [] else [0];
    assert Kept(vs, Always, 2) == Kept(vs, Always, 1) + (if d > 5.0 then [1] else []);
    assert Kept(vs, Always, 3) == Kept(vs, Always, 2) + (if d > 10.0 then [2] else []);
    assert Kept(vs, Always, 4) == Kept(vs, Always, 3) + (if d > 15.0 then [3] else []);
  }

  /** Once ffmpeg is found the mobile generator never raises: a source no encode can
      read (a missing file, say) gives an empty list rather than an error. */
  lemma MobileUnreadableSource(pid: string, probe: Option<real>, encodes: nat -> bool)
    requires forall i: nat :: !encodes(i)
    ensures MobileOutcome(pid, true, probe, encodes) == Success([])
  {
    KeptNoneRan(MobileVariants(ProbedDuration(probe)), encodes, 4);
  }

  /** The main generator instead reports the first recipe as failed. */
  lemma MainUnreadableSource(pid: string, probe: Option<real>, encodes: nat -> bool)
    requires forall i: nat :: !encodes(i)
    requires ProbedDuration(probe) > 0.0
    ensures MainOutcome(pid, true, true, probe, encodes) == Failure(FfmpegFailed(0))
  {
    var vs := MainVariants(ProbedDuration(probe));
    assert FirstFailure(vs, encodes, 1) == Some(0);
    FirstFailureStable(vs, encodes, 1, 3);
  }

  /** Nothing ran, nothing is kept. */
  lemma {:induction false} KeptNoneRan(vs: seq<Variant>, ran: nat -> bool, n: nat)
    requires n <= |vs|
    requires forall i: nat :: !ran(i)
    ensures Kept(vs, ran, n) == []
  {
    if n > 0 {
      KeptNoneRan(vs, ran, n - 1);
    }
  }

  /** The third mobile recipe is capped at 60 seconds, and the `0:` format then labels
      a one-minute clip "0:60". */
  lemma MobileMinuteLabel(pid: string)
    ensures MobileClip(pid, 2, MobileVariants(90.0)[2]).duration == "0:60"
  {
    assert NatToString(60) == "60";
  }

  // ---------------------------------------------------------------------------
  // AI thumbnails
  // ---------------------------------------------------------------------------

  /** The three frame times tried for every clip, in seconds. */
  const Timestamps: seq<int> := [1, 3, 5]

  /** The listing entries ending in `.mp4`, in listing order. */
  function Mp4Files(names: seq<string>): (r: seq<string>)
    ensures |r| <= |names|
    ensures forall k :: 0 <= k < |r| ==> EndsWith(r[k], ".mp4")
  {
    if names == [] then []
    else Mp4Files(names[..|names| - 1]) + (if EndsWith(names[|names| - 1], ".mp4") then [names[|names| - 1]] else [])
  }

  /** The `.mp4` filter keeps exactly the listing entries ending in `.mp4`. */
  lemma {:induction false} Mp4FilesMembers(names: seq<string>, n: string)
    ensures n in Mp4Files(names) <==> n in names && EndsWith(n, ".mp4")
  {
    if names != [] {
      var init := names[..|names| - 1];
      Mp4FilesMembers(init, n);
      assert names == init + [names[|names| - 1]];
    }
  }

  /** A clip id as the router derives it from a file name: every ".mp4" removed. */
  function ClipIdOf(name: string): string {
    ReplaceAll(name, ".mp4", "")
  }

  function AiThumb(pid: string, clipId: string, i: nat): AiThumbnail
    requires i < 3
  {
    AiThumbnail(clipId, ThumbnailUrl(pid, clipId + "-ai-" + NatToString(i) + ".jpg"), Timestamps[i], "ai_generated")
  }

  /** The entries for one clip file: one per frame time, among the first `n`, whose
      ffmpeg run exited with status 0. */
  function ThumbsForFile(pid: string, file: string, frame: (string, int) -> bool, n: nat): (ts: seq<AiThumbnail>)
    requires n <= 3
    ensures |ts| <= n
    ensures forall k :: 0 <= k < |ts| ==> exists i: nat :: i < n && frame(file, Timestamps[i]) && ts[k] == AiThumb(pid, ClipIdOf(file), i)
  {
    if n == 0 then []
    else ThumbsForFile(pid, file, frame, n - 1)
         + (if frame(file, Timestamps[n - 1]) then [AiThumb(pid, ClipIdOf(file), n - 1)] else [])
  }

  /** Every successful run among the first `n` frame times has its entry. */
  lemma {:induction false} ThumbsForFileComplete(pid: string, file: string, frame: (string, int) -> bool, n: nat)
    requires n <= 3
    ensures forall i :: 0 <= i < n && frame(file, Timestamps[i]) ==> AiThumb(pid, ClipIdOf(file), i) in ThumbsForFile(pid, file, frame, n)
  {
    if n > 0 {
      ThumbsForFileComplete(pid, file, frame, n - 1);
      var prev := ThumbsForFile(pid, file, frame, n - 1);
      var last := if frame(file, Timestamps[n - 1]) then [AiThumb(pid, ClipIdOf(file), n - 1)] else [];
      assert ThumbsForFile(pid, file, frame, n) == prev + last;
      forall i | 0 <= i < n && frame(file, Timestamps[i])
        ensures AiThumb(pid, ClipIdOf(file), i) in prev + last
      {
        if i == n - 1 {
          assert (prev + last)[|prev|] == AiThumb(pid, ClipIdOf(file), i);
        }
      }
    }
  }

  /** The entries are in strictly increasing frame time. */
  predicate IncreasingTimes(ts: seq<AiThumbnail>) {
    forall k, l :: 0 <= k < l < |ts| ==> ts[k].timestamp < ts[l].timestamp
  }

  /** Every entry lies before the time `bound`. */
  predicate TimesBelow(ts: seq<AiThumbnail>, bound: int) {
    forall k :: 0 <= k < |ts| ==> ts[k].timestamp < bound
  }

  /** The entries of one clip file are in strictly increasing frame time, so no frame
      time has two entries. */
  lemma {:induction false} ThumbsForFileOrdered(pid: string, file: string, frame: (string, int) -> bool, n: nat)
    requires n <= 3
    ensures IncreasingTimes(ThumbsForFile(pid, file, frame, n))
  {
    if n > 0 {
      ThumbsForFileOrdered(pid, file, frame, n - 1);
      ThumbTimesBelow(pid, file, frame, n - 1);
      var prev := ThumbsForFile(pid, file, frame, n - 1);
      var last := if frame(file, Timestamps[n - 1]) then [AiThumb(pid, ClipIdOf(file), n - 1)] else [];
      assert ThumbsForFile(pid, file, frame, n) == prev + last;
      AppendLaterTime(prev, last, 2 * (n - 1));
    }
  }

  /** The entries for the first `n` frame times lie before the time 2·n. */
  lemma {:induction false} ThumbTimesBelow(pid: string, file: string, frame: (string, int) -> bool, n: nat)
    requires n <= 3
    ensures TimesBelow(ThumbsForFile(pid, file, frame, n), 2 * n)
  {
    if n > 0 {
      ThumbTimesBelow(pid, file, frame, n - 1);
    }
  }

  /** Appending entries no earlier than `bound` to entries before it keeps the times increasing. */
  lemma AppendLaterTime(prev: seq<AiThumbnail>, last: seq<AiThumbnail>, bound: int)
    requires IncreasingTimes(prev) && TimesBelow(prev, bound)
    requires |last| <= 1 && forall k :: 0 <= k < |last| ==> last[k].timestamp >= bound
    ensures IncreasingTimes(prev + last)
  {
  }

  /** The entries for a list of clip files, file after file. */
  function ThumbsForFiles(pid: string, files: seq<string>, frame: (string, int) -> bool): seq<AiThumbnail> {
    if files == [] then []
    else ThumbsForFiles(pid, files[..|files| - 1], frame) + ThumbsForFile(pid, files[|files| - 1], frame, 3)
  }

  /** `_generate_ai_thumbnails`: for every `.mp4` entry of the listing and every frame time
      1, 3, 5, one entry per successful ffmpeg run. ffmpeg is looked up inside the loop,
      so a missing ffmpeg raises only when there is at least one clip file. */
  method GenerateAiThumbnails(pid: string, listing: seq<string>, ffmpegFound: bool, frame: (string, int) -> bool)
    returns (r: Result<seq<AiThumbnail>, ClipError>)
    ensures Mp4Files(listing) != [] && !ffmpegFound ==> r == Failure(FfmpegNotFound)
    ensures Mp4Files(listing) == [] || ffmpegFound ==> r == Success(ThumbsForFiles(pid, Mp4Files(listing), frame))
  {
    var videoFiles := Mp4Files(listing);
    var thumbnails: seq<AiThumbnail> := [];
    for f := 0 to |videoFiles|
      invariant f > 0 ==> ffmpegFound
      invariant thumbnails == ThumbsForFiles(pid, videoFiles[..f], frame)
    {
      var fileThumbnails := FileThumbnails(pid, videoFiles[f], ffmpegFound, frame);
      if fileThumbnails.Failure? {
        return Failure(fileThumbnails.error);
      }
      ThumbsFilesSnoc(pid, videoFiles, f, frame);
      thumbnails := thumbnails + fileThumbnails.value;
    }
    assert videoFiles[..|videoFiles|] == videoFiles;
    return Success(thumbnails);
  }

  /** The frame times of one clip file: the ffmpeg lookup fails before the first run when
      ffmpeg is missing; otherwise one entry per successful run. */
  method FileThumbnails(pid: string, file: string, ffmpegFound: bool, frame: (string, int) -> bool)
    returns (r: Result<seq<AiThumbnail>, ClipError>)
    ensures !ffmpegFound ==> r == Failure(FfmpegNotFound)
    ensures ffmpegFound ==> r == Success(ThumbsForFile(pid, file, frame, 3))
  {
    var thumbnails: seq<AiThumbnail> := [];
    for i := 0 to 3
      invariant i > 0 ==> ffmpegFound
      invariant thumbnails == ThumbsForFile(pid, file, frame, i)
    {
      if !ffmpegFound {
        return Failure(FfmpegNotFound);
      }
      ThumbStep(pid, file, frame, i);
      if frame(file, Timestamps[i]) {
        thumbnails := thumbnails + [AiThumb(pid, ClipIdOf(file), i)];
      }
    }
    return Success(thumbnails);
  }

  /** One more frame time adds the entry of a successful run. */
  lemma ThumbStep(pid: string, file: string, frame: (string, int) -> bool, i: nat)
    requires i < 3
    ensures ThumbsForFile(pid, file, frame, i + 1)
         == ThumbsForFile(pid, file, frame, i) + (if frame(file, Timestamps[i]) then [AiThumb(pid, ClipIdOf(file), i)] else [])
  {
  }

  /** One more clip file adds that file's entries. */
  lemma ThumbsFilesSnoc(pid: string, files: seq<string>, f: nat, frame: (string, int) -> bool)
    requires f < |files|
    ensures ThumbsForFiles(pid, files[..f + 1], frame) == ThumbsForFiles(pid, files[..f], frame) + ThumbsForFile(pid, files[f], frame, 3)
  {
    assert files[..f + 1][..f] == files[..f];
  }

  /** At most three entries per clip file, each at one of the three frame times, of
      kind "ai_generated" and belonging to one of the files. */
  lemma {:induction false} ThumbsBound(pid: string, files: seq<string>, frame: (string, int) -> bool)
    ensures var ts := ThumbsForFiles(pid, files, frame);
      && |ts| <= 3 * |files|
      && forall k :: 0 <= k < |ts| ==>
           ts[k].timestamp in Timestamps && ts[k].kind == "ai_generated"
           && exists f: string :: f in files && ts[k].clipId == ClipIdOf(f)
  {
    if files != [] {
      var init := files[..|files| - 1];
      var last := files[|files| - 1];
      ThumbsBound(pid, init, frame);
      var a := ThumbsForFiles(pid, init, frame);
      var b := ThumbsForFile(pid, last, frame, 3);
      var ts: seq<AiThumbnail> := ThumbsForFiles(pid, files, frame);
      assert ts == a + b;
      forall k | 0 <= k < |ts|
        ensures ts[k].timestamp in Timestamps && ts[k].kind == "ai_generated"
          && exists f: string :: f in files && ts[k].clipId == ClipIdOf(f)
      {
        if k < |a| {
          assert ts[k] == a[k];
          var f: string :| f in init && a[k].clipId == ClipIdOf(f);
          assert f in files;
        } else {
          assert ts[k] == b[k - |a|];
          var i: nat :| i < 3 && frame(last, Timestamps[i]) && b[k - |a|] == AiThumb(pid, ClipIdOf(last), i);
          assert last in files;
        }
      }
    }
  }

  // ---------------------------------------------------------------------------
  // Clip listing
  // ---------------------------------------------------------------------------

  /** The listing entry for a clip file: id without ".mp4", title after the last
      "-clip-", and the download URL. */
  function ListedFor(pid: string, name: string): ListedClip {
    var id := ClipIdOf(name);
    ListedClip(id, LastPiece(id, "-clip-"), "/api/clips/" + pid + "/" + name)
  }

  function ListedAll(pid: string, names: seq<string>): (r: seq<ListedClip>)
    ensures |r| == |names|
  {
    seq(|names|, k requires 0 <= k < |names| => ListedFor(pid, names[k]))
  }

  /** `list_clips`: no directory gives the empty list; otherwise one entry per `.mp4`
      name, in listing order. */
  method ListClips(pid: string, listing: Option<seq<string>>) returns (r: seq<ListedClip>)
    ensures listing.None? ==> r == []
    ensures listing.Some? ==> r == ListedAll(pid, Mp4Files(listing.value))
  {
    if listing.None? {
      return [];
    }
    var names := listing.value;
    var results: seq<ListedClip> := [];
    for i := 0 to |names|
      invariant results == ListedAll(pid, Mp4Files(names[..i]))
    {
      Mp4FilesSnoc(names, i);
      if EndsWith(names[i], ".mp4") {
        ListedAllSnoc(pid, Mp4Files(names[..i]), names[i]);
        results := results + [ListedFor(pid, names[i])];
      }
    }
    assert names[..|names|] == names;
    return results;
  }

  /** One more listing entry adds at most that entry to the `.mp4` names. */
  lemma Mp4FilesSnoc(names: seq<string>, i: nat)
    requires i < |names|
    ensures Mp4Files(names[..i + 1]) == Mp4Files(names[..i]) + (if EndsWith(names[i], ".mp4") then [names[i]] else [])
  {
    assert names[..i + 1][..i] == names[..i];
  }

  lemma ListedAllSnoc(pid: string, names: seq<string>, name: string)
    ensures ListedAll(pid, names + [name]) == ListedAll(pid, names) + [ListedFor(pid, name)]
  {
  }

  /** Project ids are uuid4 strings: lower-case hexadecimal digits and dashes. */
  predicate IsUuidText(pid: string) {
    forall k :: 0 <= k < |pid| ==> pid[k] in "0123456789abcdef-"
  }

  /** A string none of whose characters equals the first character of `sub` does not contain it. */
  lemma NotContainsByFirst(s: string, sub: string)
    requires |sub| > 0
    requires forall k :: 0 <= k < |s| ==> s[k] != sub[0]
    ensures !Contains(s, sub)
  {
    forall i | 0 <= i <= |s| ensures !OccursAt(s, sub, i) {
      if i < |s| && i + |sub| <= |s| {
        assert s[i..i + |sub|][0] == s[i];
      }
    }
  }

  /** Removing ".mp4" from a dot-free name followed by ".mp4" gives the name. */
  lemma ClipIdOfMp4(x: string)
    requires forall k :: 0 <= k < |x| ==> x[k] != '.'
    ensures ClipIdOf(x + ".mp4") == x
  {
    var s := x + ".mp4";
    assert OccursAt(s, ".mp4", |x|);
    forall j | 0 <= j < |x| ensures !OccursAt(s, ".mp4", j) {
      assert s[j] == x[j];
    }
    IndexOfFirst(s, ".mp4", |x|);
    assert s[|x| + 4..] == "";
    NotContainsByFirst("", ".mp4");
    assert s[..|x|] == x;
  }

  /** A generated clip id holds no dot when the project id is a uuid. */
  lemma MainClipIdDotFree(pid: string, idx: nat)
    requires IsUuidText(pid)
    ensures forall k :: 0 <= k < |MainClipId(pid, idx)| ==> MainClipId(pid, idx)[k] != '.'
  {
    var id := MainClipId(pid, idx);
    var digits := NatToString(idx);
    forall k | 0 <= k < |id| ensures id[k] != '.' {
      if k < |pid| {
        assert id[k] == pid[k];
      } else if k < |pid| + 6 {
        assert id[k] == "-clip-"[k - |pid|];
      } else {
        assert id[k] == digits[k - |pid| - 6];
      }
    }
  }

  /** In a generated clip id the separator first occurs right after the project id:
      it holds an 'l', which a uuid does not. */
  lemma SeparatorAfterPid(pid: string, digits: string)
    requires IsUuidText(pid) && |digits| > 0
    ensures IndexOf(pid + "-clip-" + digits, "-clip-") == Some(|pid|)
  {
    var id := pid + "-clip-" + digits;
    assert id[|pid|..|pid| + 6] == "-clip-";
    assert OccursAt(id, "-clip-", |pid|);
    forall j | 0 <= j < |pid| ensures !OccursAt(id, "-clip-", j) {
      assert id[j + 2] != 'l' by {
        if j + 2 < |pid| {
          assert id[j + 2] == pid[j + 2];
        } else if j + 2 == |pid| {
          assert id[j + 2] == '-';
        } else {
          assert id[j + 2] == 'c';
        }
      }
      assert id[j..j + 6][2] == id[j + 2];
    }
    IndexOfFirst(id, "-clip-", |pid|);
  }

  /** The clip listing gives back what the main generator named: for a uuid project id,
      the file of recipe `idx` is listed with the generator's clip id, with the recipe
      index as its title. */
  lemma {:induction false} ListingRecoversMainClip(pid: string, idx: nat)
    requires IsUuidText(pid)
    ensures ListedFor(pid, MainClipId(pid, idx) + ".mp4")
         == ListedClip(MainClipId(pid, idx), NatToString(idx), "/api/clips/" + pid + "/" + MainClipId(pid, idx) + ".mp4")
  {
    MainFileClipId(pid, idx);
    MainClipTitle(pid, idx);
  }

  /** The clip id of a generated main clip file is the generator's id. */
  lemma MainFileClipId(pid: string, idx: nat)
    requires IsUuidText(pid)
    ensures ClipIdOf(MainClipId(pid, idx) + ".mp4") == MainClipId(pid, idx)
  {
    MainClipIdDotFree(pid, idx);
    ClipIdOfMp4(MainClipId(pid, idx));
  }

  /** The title read back from a generated main clip id is the recipe index. */
  lemma MainClipTitle(pid: string, idx: nat)
    requires IsUuidText(pid)
    ensures LastPiece(MainClipId(pid, idx), "-clip-") == NatToString(idx)
  {
    var id := MainClipId(pid, idx);
    var digits := NatToString(idx);
    SeparatorAfterPid(pid, digits);
    assert id[|pid| + 6..] == digits;
    NotContainsByFirst(digits, "-clip-");
    LastPieceAfter(id, "-clip-", |pid|);
    LastPieceWithout(digits, "-clip-");
  }

  // ---------------------------------------------------------------------------
  // Caption translation
  // ---------------------------------------------------------------------------

  /** The stored caption file as read back from JSON: both keys may be absent. */
  datatype StoredCaptions = StoredCaptions(language: Option<string>, segments: Option<seq<Segment>>)

  /** The three caption texts the caption generator falls back to, which are the
      phrases the built-in tables translate. */
  const WelcomeText := "Welcome to our amazing product demo"
  const TechnologyText := "This revolutionary technology will change everything"
  const OpportunityText := "Don't miss out on this incredible opportunity"
  const FallbackCaptionTexts: seq<string> := [WelcomeText, TechnologyText, OpportunityText]

  /** One language's phrase table. */
  function PhraseMap(welcome: string, technology: string, opportunity: string): (m: map<string, string>)
    ensures m.Keys == {WelcomeText, TechnologyText, OpportunityText}
  {
    map[WelcomeText := welcome, TechnologyText := technology, OpportunityText := opportunity]
  }

  /** The language codes the upload page offers for translation. */
  const UiLanguages: set<string> := {"es", "fr", "de", "it", "pt", "ru", "ja", "ko", "zh", "ar", "hi"}

  /** The built-in phrase tables (`mock_translations`), one per offered language. */
  function MockTranslations(): map<string, map<string, string>> {
    map code | code in UiLanguages :: LanguagePhrases(code)
  }

  /** The phrase table of one offered language. */
  function LanguagePhrases(code: string): map<string, string>
    requires code in UiLanguages
  {
    if code == "es" then SpanishPhrases()
    else if code == "fr" then FrenchPhrases()
    else if code == "de" then GermanPhrases()
    else if code == "it" then ItalianPhrases()
    else if code == "pt" then PortuguesePhrases()
    else if code == "ru" then RussianPhrases()
    else if code == "ja" then JapanesePhrases()
    else if code == "ko" then KoreanPhrases()
    else if code == "zh" then ChinesePhrases()
    else if code == "ar" then ArabicPhrases()
    else HindiPhrases()
  }

  function SpanishPhrases(): map<string, string> {
    PhraseMap("Bienvenido a nuestra increíble demostración de producto",
              "Esta tecnología revolucionaria cambiará todo",
              "No te pierdas esta increíble oportunidad")
  }

  function FrenchPhrases(): map<string, string> {
    PhraseMap("Bienvenue à notre incroyable démonstration de produit",
              "Cette technologie révolutionnaire va tout changer",
              "Ne manquez pas cette opportunité incroyable")
  }

  function GermanPhrases(): map<string, string> {
    PhraseMap("Willkommen zu unserer erstaunlichen Produktdemo",
              "Diese revolutionäre Technologie wird alles verändern",
              "Verpassen Sie nicht diese unglaubliche Gelegenheit")
  }

  function ItalianPhrases(): map<string, string> {
    PhraseMap("Benvenuto alla nostra straordinaria demo del prodotto",
              "Questa tecnologia rivoluzionaria cambierà tutto",
              "Non perdere questa incredibile opportunità")
  }

  function PortuguesePhrases(): map<string, string> {
    PhraseMap("Bem-vindo à nossa incrível demonstração de produto",
              "Esta tecnologia revolucionária mudará tudo",
              "Não perca esta oportunidade incrível")
  }

  function RussianPhrases(): map<string, string> {
    PhraseMap("Добро пожаловать на нашу потрясающую демонстрацию продукта",
              "Эта революционная технология изменит все",
              "Не упустите эту невероятную возможность")
  }

  function JapanesePhrases(): map<string, string> {
    PhraseMap("素晴らしい製品デモへようこそ",
              "この画期的な技術がすべてを変えるでしょう",
              "この信じられないほどの機会を見逃さないでください")
  }

  function KoreanPhrases(): map<string, string> {
    PhraseMap("놀라운 제품 데모에 오신 것을 환영합니다",
              "이 혁명적인 기술이 모든 것을 바꿀 것입니다",
              "이 놀라운 기회를 놓치지 마세요")
  }

  function ChinesePhrases(): map<string, string> {
    PhraseMap("欢迎来到我们惊人的产品演示",
              "这项革命性技术将改变一切",
              "不要错过这个令人难以置信的机会")
  }

  function ArabicPhrases(): map<string, string> {
    PhraseMap("مرحبًا بك في عرضنا الرائع للمنتج",
              "هذه التقنية الثورية ستغير كل شيء",
              "لا تفوت هذه الفرصة المذهلة")
  }

  function HindiPhrases(): map<string, string> {
    PhraseMap("हमारे अद्भुत उत्पाद डेमो में आपका स्वागत है",
              "यह क्रांतिकारी तकनीक सब कुछ बदल देगी",
              "इस अविश्वसनीय अवसर को न चूकें")
  }

  /** A segment text without its language tag: the stripped text after the first `]`,
      or the text unchanged when it has none. */
  function CleanText(text: string): (r: string)
    ensures !Contains(text, "]") ==> r == text
    ensures Contains(text, "]") ==> |r| > 0 ==> !IsSpace(r[0]) && !IsSpace(r[|r| - 1])
  {
    match IndexOf(text, "]")
    case None => text
    case Some(i) => Trim(text[i + 1..])
  }

  /** The phrase table of the target language; empty for a language without one. */
  function PhraseTable(target: string): map<string, string> {
    if target in UiLanguages then LanguagePhrases(target) else map[]
  }

  /** The phrase table is the `mock_translations` entry of the target, or empty. */
  lemma PhraseTableIsLookup(target: string)
    ensures PhraseTable(target) == if target in MockTranslations() then MockTranslations()[target] else map[]
  {
    var tables := MockTranslations();
    if target in UiLanguages {
      assert target in tables && tables[target] == LanguagePhrases(target);
    } else {
      assert target !in tables;
    }
  }

  /** The text of a translated segment: the cleaned text looked up in the table, or the
      cleaned text itself when the table lacks it. */
  function TranslatedText(table: map<string, string>, text: string): string {
    var clean := CleanText(text);
    if clean in table then table[clean] else clean
  }

  /** `_translate_captions`: one output segment per input segment, in order, with the
      same times and translated text; the track is labelled with the target language and
      remembers the source language ("en" when the file has none). */
  method TranslateCaptions(data: StoredCaptions, target: string) returns (r: Captions)
    ensures r.language == target
    ensures r.originalLanguage == Some(data.language.GetOr("en"))
    ensures var segs := data.segments.GetOr([]);
      && |r.segments| == |segs|
      && forall i :: 0 <= i < |segs| ==>
           r.segments[i] == Segment(segs[i].start, segs[i].end, TranslatedText(PhraseTable(target), segs[i].text))
  {
    var out := TranslateSegments(data.segments.GetOr([]), PhraseTable(target));
    r := Captions(target, Some(data.language.GetOr("en")), out);
  }

  /** The segment loop of the translation. */
  method TranslateSegments(segments: seq<Segment>, translations: map<string, string>) returns (out: seq<Segment>)
    ensures |out| == |segments|
    ensures forall i :: 0 <= i < |segments| ==>
      out[i] == Segment(segments[i].start, segments[i].end, TranslatedText(translations, segments[i].text))
  {
    out := [];
    for i := 0 to |segments|
      invariant |out| == i
      invariant forall j :: 0 <= j < i ==>
        out[j] == Segment(segments[j].start, segments[j].end, TranslatedText(translations, segments[j].text))
    {
      var segment := segments[i];
      out := out + [Segment(segment.start, segment.end, TranslatedText(translations, segment.text))];
    }
  }

  /** A language without a table leaves every cleaned text as it is. */
  lemma UnknownLanguageKeepsText(target: string, text: string)
    requires target !in MockTranslations()
    ensures TranslatedText(PhraseTable(target), text) == CleanText(text)
  {
  }

  /** Everything up to the first `]` is a tag: the cleaned text is the rest, trimmed. */
  lemma CleanTextDropsTag(tag: string, rest: string)
    requires ']' !in tag
    ensures CleanText(tag + "]" + rest) == Trim(rest)
  {
    var s := tag + "]" + rest;
    assert OccursAt(s, "]", |tag|);
    forall j | 0 <= j < |tag| ensures !OccursAt(s, "]", j) {
      assert s[j] == tag[j];
    }
    IndexOfFirst(s, "]", |tag|);
    assert s[|tag| + 1..] == rest;
  }

  lemma {:induction false} TrimBlankPrefix(gap: string, body: string)
    requires IsBlank(gap)
    requires |body| > 0 ==> !IsSpace(body[0]) && !IsSpace(body[|body| - 1])
    ensures Trim(gap + body) == body
  {
    if |gap| > 0 {
      assert (gap + body)[1..] == gap[1..] + body;
      TrimBlankPrefix(gap[1..], body);
    } else {
      assert gap + body == body;
      TrimOfNonSpaced(body);
    }
  }

  /** The translation tables cover exactly the languages the page offers. */
  lemma TablesCoverOfferedLanguages()
    ensures MockTranslations().Keys == UiLanguages
  {
  }

  /** A language tag does not hide a phrase from the table: the tagged text is
      translated like the bare one. */
  lemma TaggedTextTranslatesLikeBare(table: map<string, string>, tag: string, gap: string, body: string)
    requires ']' !in tag && IsBlank(gap)
    requires |body| > 0 ==> !IsSpace(body[0]) && !IsSpace(body[|body| - 1])
    ensures TranslatedText(table, tag + "]" + gap + body) == if body in table then table[body] else body
  {
    assert tag + "]" + gap + body == tag + "]" + (gap + body);
    CleanTextDropsTag(tag, gap + body);
    TrimBlankPrefix(gap, body);
  }

  // ---------------------------------------------------------------------------
  // URL import
  // ---------------------------------------------------------------------------

  /** What yt-dlp did: raised an exception, or left these files in the project folder. */
  datatype Download = DownloadRaised | Downloaded(files: seq<string>)

  datatype HttpError = HttpError(status: nat, detail: string)

  datatype ImportResponse = ImportResponse(projectId: string, sourceUrl: string, clips: seq<Clip>, status: string)

  predicate IsVideoFile(name: string) {
    EndsWith(name, ".mp4") || EndsWith(name, ".webm") || EndsWith(name, ".mkv") || EndsWith(name, ".avi")
  }

  /** The downloaded files that are videos, in listing order. */
  function VideoFiles(names: seq<string>): (r: seq<string>)
    ensures |r| <= |names|
    ensures forall k :: 0 <= k < |r| ==> IsVideoFile(r[k])
  {
    if names == [] then []
    else VideoFiles(names[..|names| - 1]) + (if IsVideoFile(names[|names| - 1]) then [names[|names| - 1]] else [])
  }

  /** The import fails with 400 exactly when no downloaded file is a video. */
  lemma {:induction false} VideoFilesEmpty(names: seq<string>)
    ensures VideoFiles(names) == [] <==> forall k :: 0 <= k < |names| ==> !IsVideoFile(names[k])
  {
    if names != [] {
      var init := names[..|names| - 1];
      VideoFilesEmpty(init);
      assert forall k :: 0 <= k < |init| ==> init[k] == names[k];
    }
  }

  /** The three placeholder clips returned when the download or the clip generation raises. */
  function FallbackClips(pid: string): (cs: seq<Clip>)
    ensures |cs| == 3
    ensures forall i: nat :: i < 3 ==> cs[i].id == MainClipId(pid, i) && cs[i].path == MainClipId(pid, i) + ".mp4"
  {
    var rows := [("Hook Segment", "0:15", 98, "9:16", "TikTok/Instagram Reels"),
                 ("Product Demo", "0:23", 95, "1:1", "Instagram Post"),
                 ("Customer Testimonial", "0:18", 92, "16:9", "YouTube Shorts")];
    seq(3, i requires 0 <= i < 3 =>
      Clip(MainClipId(pid, i), rows[i].0, rows[i].1, Some(rows[i].2), MainClipId(pid, i) + ".mp4",
           Some("mp4"), rows[i].3, rows[i].4, ThumbnailUrl(pid, MainClipId(pid, i) + ".jpg")))
  }

  /** The fallback clips are what the main generator makes of a 60-second source, apart
      from their scores. */
  lemma FallbackMirrorsDefaultPlan(pid: string)
    ensures var plan := MainClips(pid, MainVariants(DefaultDuration), [0, 1, 2]);
      forall i :: 0 <= i < 3 ==> FallbackClips(pid)[i] == plan[i].(score := Some([98, 95, 92][i]))
  {
    DefaultDurationLabels(pid);
  }

  /** `import_video`: yt-dlp missing and an empty download are HTTP errors; any other
      exception while downloading or generating clips yields the fallback clips. */
  method ImportVideo(pid: string, url: string, ytDlpInstalled: bool, download: Download,
                     ffmpegFound: bool, probe: Option<real>, encodes: nat -> bool)
    returns (r: Result<ImportResponse, HttpError>)
    ensures !ytDlpInstalled ==> r == Failure(HttpError(500, "yt-dlp is not installed. Run: pip install yt-dlp"))
    ensures ytDlpInstalled && download.DownloadRaised? ==>
      r == Success(ImportResponse(pid, url, FallbackClips(pid), "processing_complete"))
    ensures ytDlpInstalled && download.Downloaded? && VideoFiles(download.files) == [] ==>
      r == Failure(HttpError(400, "Failed to download video from URL"))
    ensures ytDlpInstalled && download.Downloaded? && VideoFiles(download.files) != [] ==>
      var generated := MainOutcome(pid, true, ffmpegFound, probe, encodes);
      r == Success(ImportResponse(pid, url, if generated.Success? then generated.value else FallbackClips(pid),
                                  "processing_complete"))
    ensures r.Success? ==> r.value.status == "processing_complete" && r.value.projectId == pid && r.value.sourceUrl == url
  {
    if !ytDlpInstalled {
      return Failure(HttpError(500, "yt-dlp is not installed. Run: pip install yt-dlp"));
    }
    var clips: seq<Clip>;
    match download {
      case DownloadRaised =>
        clips := FallbackClips(pid);
      case Downloaded(files) =>
        var downloaded := VideoFiles(files);
        if downloaded == [] {
          return Failure(HttpError(400, "Failed to download video from URL"));
        }
        var generated := GenerateFfmpegClips(pid, true, ffmpegFound, probe, encodes);
        clips := if generated.Success? then generated.value else FallbackClips(pid);
    }
    return Success(ImportResponse(pid, url, clips, "processing_complete"));
  }
}
