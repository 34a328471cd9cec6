/** The upload page's session: the state record the page keeps, and one method per
    handler. Every asynchronous handler is split at its await point into a method that
    starts the work and a method that settles it with the reply the server sent, so any
    interleaving of replies can be written as a sequence of calls. */
module UploadSession {
  import opened Wrappers
  import opened Strings
  import opened Media
  import opened UploadValidation
  import Videos

  // ---------------------------------------------------------------------------
  // Values the session holds
  // ---------------------------------------------------------------------------

  /** The tag `isGenerating` holds while an enhancement call is pending. */
  datatype GenerationKind = MobileKind | CaptionsKind | TranslateKind | ThumbnailsKind

  datatype FileInfo = FileInfo(name: string, size: nat, mime: string)

  /** The size shown for the current video: the byte count (rendered in MB with two
      decimals) or "Unknown" for imports. */
  datatype SizeLabel = Megabytes(bytes: nat) | UnknownSize

  datatype VideoInfo = VideoInfo(name: string, size: SizeLabel, duration: string, format: string, url: Option<string>)

  /** A snapshot of every field the handlers read or write. */
  datatype SessionState = SessionState(
    uploadProgress: int,
    isProcessing: bool,
    videoUrl: string,
    selectedFile: Option<FileInfo>,
    uploadedVideoInfo: Option<VideoInfo>,
    projectId: Option<string>,
    clips: seq<Clip>,
    mobileClips: seq<Clip>,
    captions: Option<Captions>,
    translatedCaptions: Option<Captions>,
    aiThumbnails: seq<AiThumbnail>,
    isGenerating: Option<GenerationKind>)

  /** The initial value of every field. */
  const InitialState: SessionState := SessionState(0, false, "", None, None, None, [], [], None, None, [], None)

  // ---------------------------------------------------------------------------
  // Replies and errors
  // ---------------------------------------------------------------------------

  /** A thrown JavaScript value: its `message` and what `String(e)` renders. */
  datatype JsError = JsError(message: string, asString: string)

  /** `e?.message || fallback`. */
  function Describe(e: JsError, fallback: string): (r: string)
    ensures e.message != "" ==> r == e.message
    ensures e.message == "" ==> r == fallback
  {
    if e.message != "" then e.message else fallback
  }

  /** A progress event of the upload request. */
  datatype ProgressEvent = ProgressEvent(lengthComputable: bool, loaded: nat, total: nat)

  /** `Math.round(loaded / total * 100)`, read on exact rationals: the nearest whole
      percent, halves rounded up. */
  function ProgressPercent(loaded: nat, total: nat): (p: int)
    requires 0 < total && loaded <= total
    ensures 0 <= p <= 100
    ensures 2 * total * p <= 200 * loaded + total < 2 * total * (p + 1)
  {
    var d := 2 * total;
    var p := (200 * loaded + total) / d;
    DivisionBounds(200 * loaded + total, d);
    assert d * p < d * 101 by {
      assert 200 * loaded + total <= 201 * total;
    }
    ScaledLess(d, p, 101);
    p
  }

  /** The quotient of Euclidean division lies within one divisor of the dividend. */
  lemma DivisionBounds(n: nat, d: nat)
    requires d > 0
    ensures 0 <= d * (n / d) <= n < d * (n / d + 1)
  {
  }

  /** More bytes sent never shows less progress. */
  lemma ProgressMonotonic(a: nat, b: nat, total: nat)
    requires 0 < total && a <= b <= total
    ensures ProgressPercent(a, total) <= ProgressPercent(b, total)
  {
    var pa := ProgressPercent(a, total);
    var pb := ProgressPercent(b, total);
    ScaledLess(2 * total, pa, pb + 1);
  }

  /** Dividing both sides of a strict inequality by a positive factor. */
  lemma ScaledLess(c: int, x: int, y: int)
    requires c > 0 && c * x < c * y
    ensures x < y
  {
  }

  /** The fields of the upload endpoint's JSON the page reads. */
  datatype UploadReply = UploadReply(projectId: Option<string>, clips: Option<seq<Clip>>,
                                     filename: Option<string>, sizeBytes: Option<nat>)

  /** How the upload request ended: loaded with a status, a body and the body parsed as
      JSON when it parses, or a network error. */
  datatype XhrReply = XhrLoaded(status: nat, text: string, json: Option<UploadReply>) | XhrNetworkError

  /** The upload promise: resolved with the parsed body on a 2xx status, rejected with
      the message the page builds otherwise. */
  function UploadOutcome(reply: XhrReply): (r: Result<UploadReply, string>)
    ensures r.Success? <==> reply.XhrLoaded? && 200 <= reply.status < 300 && reply.json.Some?
    ensures r.Failure? ==> r.error != ""
    ensures r.Success? ==> r.value == reply.json.value
    ensures reply.XhrNetworkError? ==> r == Failure("Upload failed: Network error")
    ensures reply.XhrLoaded? && 200 <= reply.status < 300 && reply.json.None? ==> r == Failure("Invalid response format")
    ensures reply.XhrLoaded? && !(200 <= reply.status < 300) ==>
      r == Failure("Upload failed: " + NatToString(reply.status) + " - " + reply.text)
  {
    match reply
    case XhrNetworkError => Failure("Upload failed: Network error")
    case XhrLoaded(status, text, json) =>
      if 200 <= status < 300 then
        (if json.Some? then Success(json.value) else Failure("Invalid response format"))
      else Failure("Upload failed: " + NatToString(status) + " - " + text)
  }

  /** How a `fetch` call ended: a response with its status, body text and body parsed as
      JSON (or the parse error), or a rejected promise. */
  datatype FetchReply<T> = Response(status: nat, text: string, json: Result<T, JsError>) | FetchRejected(error: JsError)

  /** The API client's wrapper around one endpoint: the parsed body on a 2xx status, an
      error naming the operation and the status otherwise; `withText` appends the body. */
  function ApiOutcome<T>(reply: FetchReply<T>, operation: string, withText: bool): (r: Result<T, JsError>)
    ensures r.Success? <==> reply.Response? && 200 <= reply.status < 300 && reply.json.Success?
    ensures r.Success? ==> r.value == reply.json.value
    ensures reply.FetchRejected? ==> r == Failure(reply.error)
    ensures reply.Response? && 200 <= reply.status < 300 && reply.json.Failure? ==> r == Failure(reply.json.error)
    ensures reply.Response? && !(200 <= reply.status < 300) ==>
      && r.Failure? && r.error.message != ""
      && r.error.message == operation + " failed: " + NatToString(reply.status) + (if withText then " - " + reply.text else "")
  {
    match reply
    case FetchRejected(e) => Failure(e)
    case Response(status, text, json) =>
      if 200 <= status < 300 then json
      else
        var message := operation + " failed: " + NatToString(status) + (if withText then " - " + text else "");
        Failure(JsError(message, "Error: " + message))
  }

  /** The fields of the import endpoint's JSON the page reads. */
  datatype ImportReply = ImportReply(projectId: Option<string>, clips: Option<seq<Clip>>)

  // ---------------------------------------------------------------------------
  // Derived values
  // ---------------------------------------------------------------------------

  /** `!projectId` is false: a project id is present and not empty. */
  predicate HasProject(projectId: Option<string>) {
    projectId.Some? && projectId.value != ""
  }

  /** The video card after an upload: the server's name and size when given and truthy,
      the file's otherwise. */
  function UploadedInfo(file: FileInfo, reply: UploadReply, duration: string): (v: VideoInfo)
    ensures v.format == FormatLabel(file.mime) && v.duration == duration && v.url.None?
    ensures v.name == (if reply.filename.Some? && reply.filename.value != "" then reply.filename.value else file.name)
    ensures v.size == Megabytes(if reply.sizeBytes.Some? && reply.sizeBytes.value != 0 then reply.sizeBytes.value else file.size)
  {
    var name := if reply.filename.Some? && reply.filename.value != "" then reply.filename.value else file.name;
    var bytes := if reply.sizeBytes.Some? && reply.sizeBytes.value != 0 then reply.sizeBytes.value else file.size;
    VideoInfo(name, Megabytes(bytes), duration, FormatLabel(file.mime), None)
  }

  /** The video card after an import. */
  function ImportedInfo(url: string): VideoInfo {
    VideoInfo("Imported Video", UnknownSize, "0:00", "IMPORTED", Some(url))
  }

  /** The toast `handleUrlSubmit` shows instead of importing: a blank field first, then
      an unsupported URL, tested on the field as typed; none when the import may start. */
  function UrlRejection(url: string): (n: Option<Notice>)
    ensures n.None? <==> Trim(url) != "" && ValidateUrl(url)
    ensures Trim(url) == "" ==> n == Some(Notice("URL required", "Please enter a valid video URL.", true))
    ensures Trim(url) != "" && !ValidateUrl(url) ==>
      n == Some(Notice("Invalid URL", "Please enter a valid URL from supported platforms.", true))
  {
    if Trim(url) == "" then Some(Notice("URL required", "Please enter a valid video URL.", true))
    else if !ValidateUrl(url) then Some(Notice("Invalid URL", "Please enter a valid URL from supported platforms.", true))
    else None
  }

  /** The languages offered for translation, as code and name. */
  const Languages: seq<(string, string)> := [
    ("es", "Spanish"), ("fr", "French"), ("de", "German"), ("it", "Italian"), ("pt", "Portuguese"),
    ("ru", "Russian"), ("ja", "Japanese"), ("ko", "Korean"), ("zh", "Chinese"), ("ar", "Arabic"), ("hi", "Hindi")]

  /** The names the translation toast uses. */
  const LanguageNames: map<string, string> := map[
    "es" := "Spanish", "fr" := "French", "de" := "German", "it" := "Italian",
    "pt" := "Portuguese", "ru" := "Russian", "ja" := "Japanese", "ko" := "Korean",
    "zh" := "Chinese", "ar" := "Arabic", "hi" := "Hindi"]

  /** `languageNames[code] || code`. */
  function LanguageName(code: string): (r: string)
    ensures code !in LanguageNames ==> r == code
    ensures code in LanguageNames ==> r == LanguageNames[code]
  {
    if code in LanguageNames && LanguageNames[code] != "" then LanguageNames[code] else code
  }

  /** Every offered language has a backend phrase table. */
  lemma OfferedLanguageHasTable(k: nat)
    requires k < |Languages|
    ensures Languages[k].0 in Videos.UiLanguages
  {
  }

  /** The toast names every offered language as the picker lists it. */
  lemma OfferedLanguageNamed(k: nat)
    requires k < |Languages|
    ensures LanguageName(Languages[k].0) == Languages[k].1
  {
  }

  /** The toast knows no language that is not offered. */
  lemma NamedLanguagesOffered()
    ensures forall code :: code in LanguageNames ==> exists k :: 0 <= k < |Languages| && Languages[k].0 == code
  {
    forall code | code in LanguageNames
      ensures exists k :: 0 <= k < |Languages| && Languages[k].0 == code
    {
      var k := OfferIndex(code);
    }
  }

  /** The position in the offer of a code the toast knows. */
  lemma OfferIndex(code: string) returns (k: nat)
    requires code in LanguageNames
    ensures k < |Languages| && Languages[k].0 == code
  {
    k := if code == "es" then 0 else if code == "fr" then 1 else if code == "de" then 2
      else if code == "it" then 3 else if code == "pt" then 4 else if code == "ru" then 5
      else if code == "ja" then 6 else if code == "ko" then 7 else if code == "zh" then 8
      else if code == "ar" then 9 else 10;
  }

  /** The language a translation request uses: the given one, or Spanish when it is
      omitted or empty. */
  function TargetLanguage(requested: Option<string>): (r: string)
    ensures r != ""
    ensures requested.Some? && requested.value != "" ==> r == requested.value
    ensures !(requested.Some? && requested.value != "") ==> r == "es"
  {
    if requested.Some? && requested.value != "" then requested.value else "es"
  }

  // ---------------------------------------------------------------------------
  // Views
  // ---------------------------------------------------------------------------

  /** The "ready" panel with the clips and the enhancement buttons. */
  predicate ReadyPanelShown(s: SessionState) {
    s.uploadProgress == 100 && !s.isProcessing && s.uploadedVideoInfo.Some?
  }

  predicate ImportDisabled(s: SessionState) {
    Trim(s.videoUrl) == "" || s.isProcessing
  }

  /** Each enhancement button is disabled only while its own call is pending; the
      translate button also while there are no captions. */
  predicate EnhancementDisabled(s: SessionState, kind: GenerationKind) {
    s.isGenerating == Some(kind) || (kind == TranslateKind && s.captions.None?)
  }

  /** The language picker shows while captions exist and no translation does. */
  predicate LanguagePickerShown(s: SessionState) {
    s.captions.Some? && s.translatedCaptions.None?
  }

  /** The picker's buttons are disabled while a translation is pending. */
  predicate LanguageButtonsDisabled(s: SessionState) {
    s.isGenerating == Some(TranslateKind)
  }

  /** A pending call of one kind never disables the buttons of the other kinds (the
      translate button still depends on captions): there is no global busy guard. */
  lemma PendingKindsAreIndependent(s: SessionState, pending: GenerationKind, other: GenerationKind)
    requires s.isGenerating == Some(pending) && other != pending
    requires other == TranslateKind ==> s.captions.Some?
    ensures !EnhancementDisabled(s, other)
  {
  }

  /** The fresh page shows no ready panel and no picker, and its translate button is
      disabled. */
  lemma InitialView()
    ensures !ReadyPanelShown(InitialState) && !LanguagePickerShown(InitialState)
    ensures EnhancementDisabled(InitialState, TranslateKind) && !EnhancementDisabled(InitialState, MobileKind)
    ensures ImportDisabled(InitialState)
  {
  }

  // ---------------------------------------------------------------------------
  // The session
  // ---------------------------------------------------------------------------

  class Session {
    var uploadProgress: int
    var isProcessing: bool
    var videoUrl: string
    var selectedFile: Option<FileInfo>
    var uploadedVideoInfo: Option<VideoInfo>
    var projectId: Option<string>
    var clips: seq<Clip>
    var mobileClips: seq<Clip>
    var captions: Option<Captions>
    var translatedCaptions: Option<Captions>
    var aiThumbnails: seq<AiThumbnail>
    var isGenerating: Option<GenerationKind>

    function State(): SessionState
      reads this
    {
      SessionState(uploadProgress, isProcessing, videoUrl, selectedFile, uploadedVideoInfo, projectId,
                   clips, mobileClips, captions, translatedCaptions, aiThumbnails, isGenerating)
    }

    /** The progress bar stays within 0..100. */
    predicate Valid()
      reads this
    {
      0 <= uploadProgress <= 100
    }

    constructor()
      ensures State() == InitialState && Valid()
    {
      uploadProgress := 0;
      isProcessing := false;
      videoUrl := "";
      selectedFile := None;
      uploadedVideoInfo := None;
      projectId := None;
      clips := [];
      mobileClips := [];
      captions := None;
      translatedCaptions := None;
      aiThumbnails := [];
      isGenerating := None;
    }

    /** `resetUpload`: every field back to its initial value. */
    method Reset()
      modifies this
      ensures State() == InitialState && Valid()
    {
      uploadProgress := 0;
      isProcessing := false;
      videoUrl := "";
      selectedFile := None;
      uploadedVideoInfo := None;
      projectId := None;
      clips := [];
      mobileClips := [];
      captions := None;
      translatedCaptions := None;
      aiThumbnails := [];
      isGenerating := None;
      assert State() == SessionState(0, false, "", None, None, None, [], [], None, None, [], None);
    }

    /** Typing in the URL field. */
    method SetVideoUrl(url: string)
      modifies this
      ensures State() == old(State()).(videoUrl := url)
      ensures Valid() == old(Valid())
    {
      videoUrl := url;
    }

    // --- processFile -------------------------------------------------------

    /** `processFile` up to the upload: a rejected file only shows its toast; an accepted
        one is selected and the progress restarts at 0. */
    method StartUpload(file: FileInfo) returns (accepted: bool, notice: Option<Notice>)
      requires Valid()
      modifies this
      ensures accepted <==> ValidateFile(file.size, file.mime) == Accepted
      ensures notice == RejectionNotice(ValidateFile(file.size, file.mime))
      ensures !accepted ==> State() == old(State())
      ensures accepted ==> State() == old(State()).(selectedFile := Some(file), isProcessing := true, uploadProgress := 0)
      ensures Valid()
    {
      var check := ValidateFile(file.size, file.mime);
      notice := RejectionNotice(check);
      if check != Accepted {
        return false, notice;
      }
      selectedFile := Some(file);
      isProcessing := true;
      uploadProgress := 0;
      accepted := true;
    }

    /** The upload's progress listener: only events with a computable length move the bar. */
    method OnUploadProgress(e: ProgressEvent)
      requires Valid()
      requires e.lengthComputable ==> 0 < e.total && e.loaded <= e.total
      modifies this
      ensures e.lengthComputable ==> State() == old(State()).(uploadProgress := ProgressPercent(e.loaded, e.total))
      ensures !e.lengthComputable ==> State() == old(State())
      ensures Valid()
    {
      if e.lengthComputable {
        uploadProgress := ProgressPercent(e.loaded, e.total);
      }
    }

    /** `processFile` after the upload settled: on success the bar jumps to 100, the
        project and its clips are taken from the reply and the video card is filled in
        with the probed duration; on failure only the spinner stops and a toast reports
        the error. */
    method SettleUpload(file: FileInfo, reply: XhrReply, probe: Option<Seconds>) returns (notice: Option<Notice>)
      requires Valid()
      modifies this
      ensures match UploadOutcome(reply)
        case Success(res) =>
          && notice.None?
          && State() == old(State()).(uploadProgress := 100, isProcessing := false, projectId := res.projectId,
                                      clips := res.clips.GetOr([]),
                                      uploadedVideoInfo := Some(UploadedInfo(file, res, ProbeLabel(probe))))
        case Failure(message) =>
          && notice == Some(Notice("Upload failed", message, true))
          && State() == old(State()).(isProcessing := false)
      ensures Valid()
    {
      var outcome := UploadOutcome(reply);
      match outcome
      case Success(res) =>
        ghost var before := State();
        var info := UploadedInfo(file, res, ProbeLabel(probe));
        uploadProgress := 100;
        isProcessing := false;
        projectId := res.projectId;
        clips := res.clips.GetOr([]);
        uploadedVideoInfo := Some(info);
        notice := None;
        assert State() == before.(uploadProgress := 100, isProcessing := false, projectId := res.projectId,
                                  clips := res.clips.GetOr([]), uploadedVideoInfo := Some(info));
      case Failure(message) =>
        isProcessing := false;
        notice := Some(Notice("Upload failed", message, true));
    }

    // --- handleUrlSubmit ---------------------------------------------------

    /** `handleUrlSubmit` up to the request: a blank field and an unsupported URL only
        show a toast; otherwise the spinner starts and the bar shows 30. The request
        carries the field as typed, untrimmed, and is returned as `url`. */
    method StartImport() returns (started: bool, notice: Option<Notice>, url: string)
      requires Valid()
      modifies this
      ensures notice == UrlRejection(old(videoUrl))
      ensures url == old(videoUrl)
      ensures started <==> notice.None?
      ensures !started ==> State() == old(State())
      ensures started ==> State() == old(State()).(isProcessing := true, uploadProgress := 30)
      ensures Valid()
    {
      ghost var before := State();
      url := videoUrl;
      notice := UrlRejection(videoUrl);
      if notice.Some? {
        return false, notice, url;
      }
      isProcessing := true;
      uploadProgress := 30;
      started := true;
      assert State() == before.(isProcessing := true, uploadProgress := 30);
    }

    /** `handleUrlSubmit` after the import settled; `url` is the URL `StartImport` sent,
        which the field may no longer hold. */
    method SettleImport(url: string, reply: FetchReply<ImportReply>) returns (notice: Option<Notice>)
      requires Valid()
      modifies this
      ensures match ApiOutcome(reply, "Import", false)
        case Success(res) =>
          && notice.None?
          && State() == old(State()).(isProcessing := false, uploadProgress := 100, projectId := res.projectId,
                                      clips := res.clips.GetOr([]), uploadedVideoInfo := Some(ImportedInfo(url)))
        case Failure(e) =>
          && notice == Some(Notice("Import failed", Describe(e, e.asString), true))
          && State() == old(State()).(isProcessing := false)
      ensures Valid()
    {
      match ApiOutcome(reply, "Import", false)
      case Success(res) =>
        isProcessing := false;
        uploadProgress := 100;
        projectId := res.projectId;
        clips := res.clips.GetOr([]);
        uploadedVideoInfo := Some(ImportedInfo(url));
        notice := None;
      case Failure(e) =>
        isProcessing := false;
        notice := Some(Notice("Import failed", Describe(e, e.asString), true));
    }

    // --- enhancement handlers ---------------------------------------------

    /** The start of `handleMobileClips`, `handleGenerateCaptions` and
        `handleAIThumbnails`: without a project nothing happens; otherwise the kind's tag
        is set, replacing whatever tag was there. */
    method StartGeneration(kind: GenerationKind) returns (called: bool)
      requires kind != TranslateKind
      modifies this
      ensures called <==> HasProject(old(projectId))
      ensures called ==> State() == old(State()).(isGenerating := Some(kind))
      ensures !called ==> State() == old(State())
      ensures Valid() == old(Valid())
    {
      if !HasProject(projectId) {
        return false;
      }
      isGenerating := Some(kind);
      return true;
    }

    /** `handleMobileClips` settled: the mobile clips are replaced on success, and in
        every case the pending tag is cleared, whichever kind it was. */
    method SettleMobileClips(reply: FetchReply<seq<Clip>>) returns (notice: Notice)
      modifies this
      ensures match ApiOutcome(reply, "Mobile clips generation", true)
        case Success(cs) =>
          && notice == Notice("Mobile Clips Generated", "Generated " + NatToString(|cs|) + " mobile-optimized clips", false)
          && State() == old(State()).(mobileClips := cs, isGenerating := None)
        case Failure(e) =>
          && notice == Notice("Generation Failed", Describe(e, "Failed to generate mobile clips"), true)
          && State() == old(State()).(isGenerating := None)
      ensures Valid() == old(Valid())
    {
      isGenerating := None;
      match ApiOutcome(reply, "Mobile clips generation", true)
      case Success(cs) =>
        mobileClips := cs;
        notice := Notice("Mobile Clips Generated", "Generated " + NatToString(|cs|) + " mobile-optimized clips", false);
      case Failure(e) =>
        notice := Notice("Generation Failed", Describe(e, "Failed to generate mobile clips"), true);
    }

    /** `handleGenerateCaptions` settled: new captions replace the old ones and an
        earlier translation is kept. */
    method SettleCaptions(reply: FetchReply<Captions>) returns (notice: Notice)
      modifies this
      ensures match ApiOutcome(reply, "Captions generation", true)
        case Success(c) =>
          && notice == Notice("Captions Generated", "AI captions have been generated for your video", false)
          && State() == old(State()).(captions := Some(c), isGenerating := None)
        case Failure(e) =>
          && notice == Notice("Generation Failed", Describe(e, "Failed to generate captions"), true)
          && State() == old(State()).(isGenerating := None)
      ensures Valid() == old(Valid())
    {
      isGenerating := None;
      match ApiOutcome(reply, "Captions generation", true)
      case Success(c) =>
        captions := Some(c);
        notice := Notice("Captions Generated", "AI captions have been generated for your video", false);
      case Failure(e) =>
        notice := Notice("Generation Failed", Describe(e, "Failed to generate captions"), true);
    }

    /** `handleAIThumbnails` settled. */
    method SettleThumbnails(reply: FetchReply<seq<AiThumbnail>>) returns (notice: Notice)
      modifies this
      ensures match ApiOutcome(reply, "AI thumbnails generation", true)
        case Success(ts) =>
          && notice == Notice("AI Thumbnails Generated", "Generated " + NatToString(|ts|) + " AI-powered thumbnails", false)
          && State() == old(State()).(aiThumbnails := ts, isGenerating := None)
        case Failure(e) =>
          && notice == Notice("Generation Failed", Describe(e, "Failed to generate AI thumbnails"), true)
          && State() == old(State()).(isGenerating := None)
      ensures Valid() == old(Valid())
    {
      isGenerating := None;
      match ApiOutcome(reply, "AI thumbnails generation", true)
      case Success(ts) =>
        aiThumbnails := ts;
        notice := Notice("AI Thumbnails Generated", "Generated " + NatToString(|ts|) + " AI-powered thumbnails", false);
      case Failure(e) =>
        notice := Notice("Generation Failed", Describe(e, "Failed to generate AI thumbnails"), true);
    }

    /** The start of `handleTranslate`: without a project or without captions a toast
        and no call; otherwise the request goes out for the given language, Spanish when
        none is given. */
    method StartTranslation(requested: Option<string>) returns (called: bool, language: string, notice: Option<Notice>)
      modifies this
      ensures called <==> HasProject(old(projectId)) && old(captions).Some?
      ensures !called ==> notice == Some(Notice("No Captions", "Please generate captions first", true)) && State() == old(State())
      ensures called ==> notice.None? && language == TargetLanguage(requested)
                         && State() == old(State()).(isGenerating := Some(TranslateKind))
      ensures Valid() == old(Valid())
    {
      if !HasProject(projectId) || captions.None? {
        return false, "", Some(Notice("No Captions", "Please generate captions first", true));
      }
      language := TargetLanguage(requested);
      isGenerating := Some(TranslateKind);
      return true, language, None;
    }

    /** `handleTranslate` settled for `language`: the caller passes the `language` that
        `StartTranslation` returned, which the handler's closure captured. */
    method SettleTranslation(language: string, reply: FetchReply<Captions>) returns (notice: Notice)
      modifies this
      ensures match ApiOutcome(reply, "Translation", true)
        case Success(c) =>
          && notice == Notice("Translation Complete", "Captions have been translated to " + LanguageName(language), false)
          && State() == old(State()).(translatedCaptions := Some(c), isGenerating := None)
        case Failure(e) =>
          && notice == Notice("Translation Failed", Describe(e, "Failed to translate captions"), true)
          && State() == old(State()).(isGenerating := None)
      ensures Valid() == old(Valid())
    {
      isGenerating := None;
      match ApiOutcome(reply, "Translation", true)
      case Success(c) =>
        translatedCaptions := Some(c);
        notice := Notice("Translation Complete", "Captions have been translated to " + LanguageName(language), false);
      case Failure(e) =>
        notice := Notice("Translation Failed", Describe(e, "Failed to translate captions"), true);
    }
  }

  // ---------------------------------------------------------------------------
  // Scenarios
  // ---------------------------------------------------------------------------

  /** A successful JSON reply. */
  function Ok<T>(value: T): FetchReply<T> {
    Response(200, "", Success(value))
  }

  /** A session with an uploaded video of project `pid`. */
  method UploadedSession(pid: string, file: FileInfo) returns (s: Session)
    requires ValidateFile(file.size, file.mime) == Accepted
    ensures fresh(s) && s.Valid()
    ensures s.projectId == Some(pid) && s.isGenerating.None? && s.captions.None? && s.translatedCaptions.None?
    ensures ReadyPanelShown(s.State())
  {
    s := new Session();
    var accepted, rejection := s.StartUpload(file);
    var notice := s.SettleUpload(file, XhrLoaded(200, "", Some(UploadReply(Some(pid), None, None, None))), None);
  }

  /** Two enhancement calls in flight: the captions call settles first and clears the tag
      although the mobile call is still pending, so the mobile button is enabled again
      before its clips arrive. */
  method OverlappingCallsScenario(pid: string, file: FileInfo, captions: Captions)
    returns (pendingAfterFirst: Option<GenerationKind>, mobileEnabledWhilePending: bool)
    requires pid != "" && ValidateFile(file.size, file.mime) == Accepted
    ensures pendingAfterFirst.None?
    ensures mobileEnabledWhilePending
  {
    var s := UploadedSession(pid, file);
    var mobileCalled := s.StartGeneration(MobileKind);
    var captionsCalled := s.StartGeneration(CaptionsKind);
    var notice := s.SettleCaptions(Ok(captions));
    pendingAfterFirst := s.isGenerating;
    mobileEnabledWhilePending := mobileCalled && !EnhancementDisabled(s.State(), MobileKind);
  }

  /** Generating captions again after a translation keeps the old translation, which
      then no longer matches the captions, and the picker stays hidden. */
  method RegeneratedCaptionsScenario(pid: string, file: FileInfo, first: Captions, translation: Captions, second: Captions)
    returns (kept: Option<Captions>, current: Option<Captions>, pickerShown: bool)
    requires pid != "" && ValidateFile(file.size, file.mime) == Accepted
    ensures kept == Some(translation) && current == Some(second)
    ensures !pickerShown
  {
    var s := UploadedSession(pid, file);
    var called := s.StartGeneration(CaptionsKind);
    var n1 := s.SettleCaptions(Ok(first));
    var translating, language, n2 := s.StartTranslation(None);
    var n3 := s.SettleTranslation(language, Ok(translation));
    called := s.StartGeneration(CaptionsKind);
    var n4 := s.SettleCaptions(Ok(second));
    kept, current := s.translatedCaptions, s.captions;
    pickerShown := LanguagePickerShown(s.State());
  }

  /** Translating before any captions exist issues no request and shows a toast. */
  method TranslateWithoutCaptionsScenario(pid: string, file: FileInfo)
    returns (called: bool, notice: Option<Notice>)
    requires ValidateFile(file.size, file.mime) == Accepted
    ensures !called
    ensures notice == Some(Notice("No Captions", "Please generate captions first", true))
  {
    var s := UploadedSession(pid, file);
    var language;
    called, language, notice := s.StartTranslation(Some("fr"));
  }

  /** A reply that arrives after a reset lands in the fresh session: the reset page
      shows mobile clips of the old project. */
  method StaleReplyScenario(pid: string, file: FileInfo, cs: seq<Clip>)
    returns (projectAfter: Option<string>, mobileAfter: seq<Clip>)
    requires pid != "" && ValidateFile(file.size, file.mime) == Accepted
    ensures projectAfter.None?
    ensures mobileAfter == cs
  {
    var s := UploadedSession(pid, file);
    var called := s.StartGeneration(MobileKind);
    s.Reset();
    var notice := s.SettleMobileClips(Ok(cs));
    projectAfter, mobileAfter := s.projectId, s.mobileClips;
  }

  /** An import of a supported URL: the card shows the URL that was sent, even when the
      field was edited while the request was pending. */
  method ImportScenario(url: string, edited: string, res: ImportReply)
    returns (started: bool, card: Option<VideoInfo>, field: string)
    requires Trim(url) != "" && ValidateUrl(url)
    ensures started
    ensures card == Some(ImportedInfo(url)) && field == edited
  {
    var s := new Session();
    s.SetVideoUrl(url);
    var notice, sent;
    started, notice, sent := s.StartImport();
    s.SetVideoUrl(edited);
    notice := s.SettleImport(sent, Ok(res));
    card, field := s.uploadedVideoInfo, s.videoUrl;
  }

  /** The translation toast for the default language names Spanish. */
  lemma SpanishToastText()
    ensures "Captions have been translated to " + LanguageName(TargetLanguage(None)) == "Captions have been translated to Spanish"
  {
  }

  /** The whole path: upload, captions, translation with the default language. The panel
      shows throughout, the picker disappears once translated, and the toast names
      Spanish. */
  method UploadCaptionTranslateScenario(pid: string, file: FileInfo, captions: Captions, translation: Captions)
    returns (panel: bool, picker: bool, toast: Notice)
    requires pid != "" && ValidateFile(file.size, file.mime) == Accepted
    ensures panel && !picker
    ensures toast == Notice("Translation Complete", "Captions have been translated to Spanish", false)
  {
    var s := UploadedSession(pid, file);
    var called := s.StartGeneration(CaptionsKind);
    var n1 := s.SettleCaptions(Ok(captions));
    var translating, language, n2 := s.StartTranslation(None);
    toast := s.SettleTranslation(language, Ok(translation));
    SpanishToastText();
    panel := ReadyPanelShown(s.State());
    picker := LanguagePickerShown(s.State());
  }
}
