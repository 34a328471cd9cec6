# A verified model of the video-clipping dashboard's core

The application lets a user upload a video file, or import one from a video platform's
URL. The backend cuts the video into short clips with ffmpeg. The user can then ask for
mobile clips, captions, a caption translation and AI thumbnails, and browse their
projects. This project models the four pieces of that application that hold logic, and
proves what each promises:

- **The upload page** (`UploadSession`, `UploadValidation`). It holds:
  - the file check (size first, then MIME type);
  - the platform URL check;
  - the `m:ss` rendering of a probed duration;
  - the page's state record as a class `Session`, with one method per handler.

  Every asynchronous handler is split at its await point: a `Start…` method dispatches,
  and a `Settle…` method takes the server's reply as an input. Any interleaving of
  replies can therefore be written, and proved about, as a sequence of calls. The
  methods model the code as written:
  - There is one shared `isGenerating` tag, and each button is disabled only for its
    own kind.
  - Regenerating captions keeps an older translation.
  - A reply that arrives after a reset lands in the fresh page.
- **The video router's helpers** (`Videos`):
  - the clip-window planning and the clip records of the main and the mobile generators;
  - the AI-thumbnail loop;
  - the clip listing's file-name parsing;
  - the caption translation;
  - the URL import with its fallback clips.

  Every external program and every directory listing is an input:
  - the ffprobe result;
  - whether the ffmpeg lookup succeeded;
  - whether each ffmpeg run exited 0;
  - whether yt-dlp is installed and what it downloaded.
- **The project list** (`Projects`):
  - the search-and-status filter;
  - the sort, as an in-place insertion sort on an array, proved sorted and a permutation;
  - the duration parser, proved to read back the page's own `m:ss` labels;
  - selection toggling, select-all and bulk actions;
  - the status checkboxes. The page's fields are a class `ProjectList`.
- **The sidebar** (`Sidebar`): which navigation item is highlighted. At most one
  item is, for any path.

`Wrappers` (Option, Result), `Strings` (trim, ASCII case mapping, substring search, split,
replace, decimal numerals) and `Media` (clip, caption and thumbnail records) support the
rest.

## Model

| member | source | states |
|---|---|---|
| UploadValidation.ValidateFile | frontend/src/pages/UploadVideo.tsx:46-69 | too large exactly when the size exceeds 2 GiB, whatever the type; invalid type exactly when the size is within the limit and the MIME type is not one of the five listed; accepted exactly when both hold |
| UploadValidation.RejectionNotice | frontend/src/pages/UploadVideo.tsx:50-66 | no toast exactly for an accepted file; a file too large gets "File too large" / "Please select a file smaller than 2GB.", a file of another type "Invalid file type" / "Please select a valid video file (MP4, MOV, AVI).", both destructive |
| UploadValidation.SizeLimitIsInclusive | frontend/src/pages/UploadVideo.tsx:47-50 | exactly 2 GiB passes the size test, one byte more is too large |
| UploadValidation.FormatLabelOfVideoType | frontend/src/pages/UploadVideo.tsx:151 | the format label of `video/x` is the upper-cased `x` |
| UploadValidation.ValidateUrlMatchesPatterns | frontend/src/pages/UploadVideo.tsx:189-201 | the URL check holds iff the URL starts with `http://` or `https://`, an optional `www.` and one of the eight hosts |
| UploadValidation.AcceptedUrlMatchesPattern | frontend/src/pages/UploadVideo.tsx:189-201 | an accepted URL matches one of the patterns |
| UploadValidation.MatchingUrlAccepted | frontend/src/pages/UploadVideo.tsx:189-201 | a URL matching a pattern is accepted |
| UploadValidation.YouTubeWatchUrlAccepted | frontend/src/pages/UploadVideo.tsx:191 | `https://www.youtube.com/watch?v=abc` is accepted |
| UploadValidation.HostPrefixAccepted | frontend/src/pages/UploadVideo.tsx:195 | the host is only a prefix test: `https://x.community` is accepted |
| UploadValidation.UpperCaseSchemeRejected | frontend/src/pages/UploadVideo.tsx:191-197 | the scheme is matched case-sensitively |
| UploadValidation.LeadingSpaceRejected | frontend/src/pages/UploadVideo.tsx:200 | the URL is tested untrimmed |
| UploadValidation.UpperCaseHostRejected | frontend/src/pages/UploadVideo.tsx:191-197 | the host is matched case-sensitively |
| UploadValidation.FormatDuration | frontend/src/pages/UploadVideo.tsx:77-80 | the label splits at `:` into whole minutes and two-digit seconds below 60, together worth the whole seconds of the duration |
| UploadValidation.ProbeLabel | frontend/src/pages/UploadVideo.tsx:71-85 | the formatted duration, or "0:00" when the metadata cannot be read |
| UploadValidation.DurationExample | frontend/src/pages/UploadVideo.tsx:78-80 | 225.7 seconds render as "3:45" |
| UploadSession.Describe | frontend/src/pages/UploadVideo.tsx:156 | the error's message when it is non-empty, the fallback otherwise |
| UploadSession.ProgressPercent | frontend/src/pages/UploadVideo.tsx:106 | the percentage lies in 0..100 and is loaded/total·100 rounded to the nearest whole number, halves up |
| UploadSession.ProgressMonotonic | frontend/src/pages/UploadVideo.tsx:104-110 | more bytes loaded never show less progress |
| UploadSession.UploadOutcome | frontend/src/pages/UploadVideo.tsx:113-129 | success iff the status is 2xx and the body parses, with the parsed body; a 2xx reply that does not parse fails with "Invalid response format", another status with "Upload failed: status - body", a network error with "Upload failed: Network error" |
| UploadSession.ApiOutcome | frontend/src/lib/api.ts:20-83 | success iff the status is 2xx and the body parses, with the parsed body; a rejected `fetch` and a parse error pass their error on; a non-2xx status gives the message "operation failed: status", followed by " - body" except for the import |
| UploadSession.UploadedInfo | frontend/src/pages/UploadVideo.tsx:147-152 | the card takes the server's name and size when they are truthy and the file's otherwise, the probed duration and the MIME subtype's label, and no URL |
| UploadSession.LanguageName | frontend/src/pages/UploadVideo.tsx:336-343 | the listed name of a known code, the code itself otherwise |
| UploadSession.OfferedLanguageHasTable | frontend/src/pages/UploadVideo.tsx:12-24 | every language the picker offers has a backend phrase table |
| UploadSession.OfferedLanguageNamed | frontend/src/pages/UploadVideo.tsx:336-343 | the toast names every offered language as the picker lists it |
| UploadSession.NamedLanguagesOffered | frontend/src/pages/UploadVideo.tsx:336-343 | the toast knows no code that the picker does not offer |
| UploadSession.TargetLanguage | frontend/src/pages/UploadVideo.tsx:327-330 | the requested language when it is non-empty, "es" otherwise |
| UploadSession.PendingKindsAreIndependent | frontend/src/pages/UploadVideo.tsx:966-1008 | a pending call of one kind never disables another kind's button (translate still needs captions) |
| UploadSession.InitialView | frontend/src/pages/UploadVideo.tsx:27-42 | the fresh page shows no ready panel and no picker, and its import and translate buttons are disabled while the mobile button is not |
| UploadSession.Session.constructor | frontend/src/pages/UploadVideo.tsx:27-42 | every field starts at its initial value |
| UploadSession.Session.Reset | frontend/src/pages/UploadVideo.tsx:243-262 | every field returns to its initial value |
| UploadSession.Session.SetVideoUrl | frontend/src/pages/UploadVideo.tsx:524 | only the URL field changes |
| UploadSession.Session.StartUpload | frontend/src/pages/UploadVideo.tsx:87-91 | a rejected file changes nothing and shows its toast; an accepted one is selected, the spinner starts and progress restarts at 0 |
| UploadSession.Session.OnUploadProgress | frontend/src/pages/UploadVideo.tsx:104-110 | only an event of computable length moves the bar, to the rounded percentage, which stays within 0..100 |
| UploadSession.Session.SettleUpload | frontend/src/pages/UploadVideo.tsx:135-157 | success sets progress 100, stops the spinner and takes project, clips (or none) and the card from the reply; failure only stops the spinner and shows the error |
| UploadSession.UrlRejection | frontend/src/pages/UploadVideo.tsx:204-220 | no toast exactly when the trimmed field is non-empty and the untrimmed URL passes the check; a blank field is reported before an unsupported URL |
| UploadSession.Session.StartImport | frontend/src/pages/UploadVideo.tsx:203-223 | a rejected URL changes nothing and shows its toast; otherwise the spinner starts and the bar shows 30; the URL sent is the field as typed |
| UploadSession.Session.SettleImport | frontend/src/pages/UploadVideo.tsx:224-240 | success sets progress 100, project and clips and the "Imported Video" card for the URL sent, with duration "0:00"; failure only stops the spinner and shows the error |
| UploadSession.ImportScenario | frontend/src/pages/UploadVideo.tsx:203-240 | an accepted import whose field is edited before the reply shows the card of the URL that was sent and keeps the edited field |
| UploadSession.Session.StartGeneration | frontend/src/pages/UploadVideo.tsx:272-275 | without a truthy project id nothing happens; otherwise the handler's tag replaces whatever tag was set |
| UploadSession.Session.SettleMobileClips | frontend/src/pages/UploadVideo.tsx:276-291 | success replaces only the mobile clips; every reply clears the tag |
| UploadSession.Session.SettleCaptions | frontend/src/pages/UploadVideo.tsx:298-313 | success replaces only the captions and keeps any translation; every reply clears the tag |
| UploadSession.Session.StartTranslation | frontend/src/pages/UploadVideo.tsx:316-332 | without a project or captions a toast and no call; otherwise the call goes out for the requested language or Spanish |
| UploadSession.Session.SettleTranslation | frontend/src/pages/UploadVideo.tsx:333-353 | success replaces only the translation and names the language in the toast; every reply clears the tag |
| UploadSession.Session.SettleThumbnails | frontend/src/pages/UploadVideo.tsx:360-375 | success replaces only the AI thumbnails; every reply clears the tag |
| UploadSession.UploadedSession | frontend/src/pages/UploadVideo.tsx:87-152 | an accepted file with a 2xx reply leaves the ready panel shown, with the project set and nothing pending |
| UploadSession.OverlappingCallsScenario | frontend/src/pages/UploadVideo.tsx:966-980 | with mobile clips still pending, settling captions clears the tag and re-enables the mobile button |
| UploadSession.RegeneratedCaptionsScenario | frontend/src/pages/UploadVideo.tsx:294-314 | captions regenerated after a translation keep the old translation, and the picker stays hidden |
| UploadSession.TranslateWithoutCaptionsScenario | frontend/src/pages/UploadVideo.tsx:316-324 | translating before captions exist issues no call and shows "No Captions" |
| UploadSession.StaleReplyScenario | frontend/src/pages/UploadVideo.tsx:243-292 | a mobile reply settling after a reset fills the fresh page, which has no project |
| UploadSession.UploadCaptionTranslateScenario | frontend/src/pages/UploadVideo.tsx:316-354 | upload, captions and default translation end with the ready panel shown, the picker hidden and a toast naming Spanish |
| Videos.Kept | backend/routers/videos.py:258-265 | the kept recipe indices are increasing, below the bound, of positive length and encoded |
| Videos.KeptComplete | backend/routers/videos.py:258-265 | every recipe of positive length whose encode ran is kept |
| Videos.FirstFailure | backend/routers/videos.py:283-311 | a reported failure is a recipe of positive length whose encode failed |
| Videos.FirstFailureIsFirst | backend/routers/videos.py:258-311 | no failure iff every recipe of positive length was encoded; a reported failure has none before it |
| Videos.GenerateFfmpegClips | backend/routers/videos.py:208-325 | a missing source, then a failed ffmpeg lookup, are raised before any recipe runs; otherwise the recipe loop's result |
| Videos.RunVariants | backend/routers/videos.py:257-325 | the clips of every recipe of positive length in order, or the first failed encode's error with no clips |
| Videos.MainKeptByDuration | backend/routers/videos.py:251-265 | the recipes that survive the length test form a prefix of the table fixed by the source duration |
| Videos.MainClipsShape | backend/routers/videos.py:313-323 | a successful run yields at most three clips with distinct ids `pid-clip-i`, each scored 90 − i |
| Videos.MainClipIdInjective | backend/routers/videos.py:314 | distinct recipe indices give distinct clip ids |
| Videos.DefaultDurationLabels | backend/routers/videos.py:233-235 | with the default 60 seconds the clips are labelled 0:15, 0:23 and 0:18 |
| Videos.GenerateMobileClips | backend/routers/videos.py:443-523 | a failed ffmpeg lookup is raised first; otherwise the clips of the recipes of positive length whose encode succeeded, in order |
| Videos.MobileClipsShape | backend/routers/videos.py:461-521 | the mobile result is a subsequence of the four recipes, each clip vertical and tagged Mobile |
| Videos.MobileKeptByDuration | backend/routers/videos.py:461-471 | the mobile recipes that survive the length test, by source duration |
| Videos.MobileUnreadableSource | backend/routers/videos.py:491-511 | with ffmpeg present but no encode succeeding, the mobile generator returns no clips rather than an error |
| Videos.MainUnreadableSource | backend/routers/videos.py:283-311 | with no encode succeeding, the main generator reports recipe 0 as failed |
| Videos.KeptNoneRan | backend/routers/videos.py:510-511 | no successful encode, no clip |
| Videos.MobileMinuteLabel | backend/routers/videos.py:464 | the capped 60-second mobile recipe is labelled "0:60" |
| Videos.Mp4Files | backend/routers/videos.py:691 | the filter keeps only `.mp4` names, never more than it was given |
| Videos.Mp4FilesMembers | backend/routers/videos.py:691 | a name survives exactly when it is listed and ends in `.mp4` |
| Videos.ThumbsForFile | backend/routers/videos.py:698-723 | no more entries than frame times, each for a successful run and named `clipId-ai-i.jpg` |
| Videos.ThumbsForFileComplete | backend/routers/videos.py:698-723 | every successful run has its entry |
| Videos.ThumbsForFileOrdered | backend/routers/videos.py:698-723 | the entries are in strictly increasing frame time, so no frame time has two |
| Videos.GenerateAiThumbnails | backend/routers/videos.py:686-725 | the entries of every `.mp4` file in order, per frame time 1, 3, 5 in order; a failed ffmpeg lookup is raised only when a clip file exists |
| Videos.FileThumbnails | backend/routers/videos.py:693-723 | the entries of one clip file are those of its successful runs at 1, 3 and 5 seconds; a missing ffmpeg fails before the first run |
| Videos.ThumbsBound | backend/routers/videos.py:693-720 | at most three times as many entries as files, each at 1, 3 or 5 seconds, of type ai_generated and belonging to a listed file |
| Videos.ListClips | backend/routers/videos.py:177-188 | a missing folder gives no entries; otherwise one entry per `.mp4` name in listing order, with the derived id, title and download URL |
| Videos.ClipIdOfMp4 | backend/routers/videos.py:186 | removing ".mp4" from a dot-free name followed by ".mp4" gives the name |
| Videos.ListingRecoversMainClip | backend/routers/videos.py:184-187 | for a uuid project id, the listing reads back the main generator's clip id with the recipe index as title |
| Videos.PhraseMap | backend/routers/videos.py:599-655 | each table translates exactly the three fallback caption texts |
| Videos.TablesCoverOfferedLanguages | backend/routers/videos.py:599-655 | there is a table for exactly the eleven offered languages |
| Videos.CleanText | backend/routers/videos.py:669 | a text without `]` is kept; otherwise the result is trimmed at both ends |
| Videos.CleanTextDropsTag | backend/routers/videos.py:668-669 | everything up to the first `]` is dropped and the rest is trimmed |
| Videos.TaggedTextTranslatesLikeBare | backend/routers/videos.py:669-672 | a tagged text is translated like the bare text |
| Videos.PhraseTableIsLookup | backend/routers/videos.py:664 | the table used is the target's entry of the built-in tables, or empty when it has none |
| Videos.UnknownLanguageKeepsText | backend/routers/videos.py:664-672 | a language without a table yields the cleaned text |
| Videos.TranslateSegments | backend/routers/videos.py:666-678 | one output segment per input segment, in order, with the same times and the translated text |
| Videos.TranslateCaptions | backend/routers/videos.py:594-680 | the track is labelled with the target language, remembers the source language ("en" when absent) and translates each segment in place |
| Videos.VideoFiles | backend/routers/videos.py:142 | only names with a video extension are kept |
| Videos.VideoFilesEmpty | backend/routers/videos.py:142-144 | the import fails with 400 exactly when no downloaded name is a video |
| Videos.FallbackClips | backend/routers/videos.py:153-172 | three clips with ids `pid-clip-0..2` and matching paths |
| Videos.FallbackMirrorsDefaultPlan | backend/routers/videos.py:153-172 | the fallback clips are the main generator's clips for a 60-second source, with scores 98, 95, 92 |
| Videos.ImportVideo | backend/routers/videos.py:116-174 | yt-dlp missing gives 500 and an empty download 400; any other failure while downloading or generating gives the fallback clips; every success is "processing_complete" for the project and URL |
| Projects.SampleProjects | frontend/src/pages/MyProjects.tsx:29-128 | seven projects with ids 1..7 |
| Projects.WithoutMembers | frontend/src/pages/MyProjects.tsx:208 | removing an id keeps exactly the other elements |
| Projects.FilterProjects | frontend/src/pages/MyProjects.tsx:143-149 | every listed project matches the search and the status filter |
| Projects.FilterMembers | frontend/src/pages/MyProjects.tsx:143-149 | a project is listed iff it is one of the projects and matches both |
| Projects.EmptyFilterKeepsAll | frontend/src/pages/MyProjects.tsx:145-147 | an empty term and no ticked status keep every project in order |
| Projects.SearchIgnoresCase | frontend/src/pages/MyProjects.tsx:145-146 | the search does not depend on the term's letter case |
| Projects.PartValue | frontend/src/pages/MyProjects.tsx:161 | a digit run reads as its value, a blank part as 0 |
| Projects.MinutesSeconds | frontend/src/pages/MyProjects.tsx:161-162 | "m:s" in digits reads as 60·m + s |
| Projects.FormattedDurationReadsBack | frontend/src/pages/MyProjects.tsx:161-162 | the page's own `m:ss` label reads back as its whole seconds |
| Projects.DurationExample | frontend/src/pages/MyProjects.tsx:161-162 | "3:45" reads as 225 |
| Projects.CompareIsKeyDifference | frontend/src/pages/MyProjects.tsx:152-167 | the comparator is the difference of a per-project key: newest first, oldest first, title collation, longest first, or all equal |
| Projects.SortProjects | frontend/src/pages/MyProjects.tsx:152-167 | the array ends sorted by the key and is a permutation of what it held; an array already in order is left as it is |
| Projects.SortedAndFiltered | frontend/src/pages/MyProjects.tsx:143-170 | the result is a permutation of the filtered projects, sorted by the chosen key; filtered projects already in order, and every list under an unknown key, are shown as filtered |
| Projects.SamplesNewestFirst | frontend/src/pages/MyProjects.tsx:29-128 | the sample projects are listed newest first |
| Projects.ToggleSelection | frontend/src/pages/MyProjects.tsx:205-211 | a selected id loses every copy, another id is appended |
| Projects.ToggleTwice | frontend/src/pages/MyProjects.tsx:205-211 | toggling twice restores the selection as a set, and exactly when the id was absent |
| Projects.ToggleAll | frontend/src/pages/MyProjects.tsx:213-219 | a selection as long as the list is cleared, any other becomes the visible ids in display order |
| Projects.BulkNotice | frontend/src/pages/MyProjects.tsx:182-199 | a toast exactly for delete, export and share |
| Projects.SetStatusChecked | frontend/src/pages/MyProjects.tsx:291-297 | ticking appends the status; unticking keeps exactly the other statuses |
| Projects.TickUntickRestores | frontend/src/pages/MyProjects.tsx:291-297 | ticking and unticking an unticked status restores the filter |
| Projects.StatusFilterNarrows | frontend/src/pages/MyProjects.tsx:147 | with one status ticked only projects of that status are listed |
| Projects.ProjectList.constructor | frontend/src/pages/MyProjects.tsx:21-25 | empty search, sort "recent", no status, no selection |
| Projects.ProjectList.SetSearchTerm | frontend/src/pages/MyProjects.tsx:248 | only the search term changes |
| Projects.ProjectList.SetSortBy | frontend/src/pages/MyProjects.tsx:252 | only the sort key changes |
| Projects.ProjectList.Visible | frontend/src/pages/MyProjects.tsx:143-170 | the shown list is the filtered projects, sorted by the current key; under an unknown key, or when already in order, exactly the filtered list |
| Projects.ProjectList.ToggleProject | frontend/src/pages/MyProjects.tsx:205-211 | only the selection changes, toggled at the id |
| Projects.ProjectList.ToggleAllProjects | frontend/src/pages/MyProjects.tsx:213-219 | select-all works on the list as shown, the filtered projects sorted by the current key: only the selection changes, as select-all decides for that list |
| Projects.ProjectList.BulkAction | frontend/src/pages/MyProjects.tsx:172-203 | nothing selected: a warning and no change; otherwise the action's toast, if any, and the selection is cleared for every action |
| Projects.ProjectList.CheckStatus | frontend/src/pages/MyProjects.tsx:291-297 | only the status filter changes, ticked or unticked |
| Projects.ProjectList.ClearStatusFilter | frontend/src/pages/MyProjects.tsx:307 | the status filter empties |
| Sidebar.NavClass | frontend/src/components/AppSidebar.tsx:45-50 | the highlighted classes iff the item is active, the hover classes iff it is not |
| Sidebar.SubpagesExclusive | frontend/src/components/AppSidebar.tsx:27-30 | no path starts with two of the four sub-page URLs |
| Sidebar.AtMostOneActive | frontend/src/components/AppSidebar.tsx:25-43 | no two navigation items are active for the same path |
| Sidebar.UploadPageHighlight | frontend/src/components/AppSidebar.tsx:38-43 | "/dashboard/upload" activates Upload Video and not Dashboard |

## Left out

- Rendering, icons and presentation-only state are not modelled: drag highlighting, preview toggles, the language dialog flag and the grid/list view. Toasts are returned as values.
- Transport is not modelled: the XMLHttpRequest, `fetch` and `FormData`. Each server reply is an input, classified by `UploadOutcome` and `ApiOutcome`.
- Asynchronous interleaving is written as explicit start and settle calls. The probed duration of an upload is a parameter of `SettleUpload`, not a separate step after it.
- The media element behind the duration probe is an input: it yields a non-negative duration or nothing. NaN and infinite durations are not modelled.
- Floating point is not modelled. The size label keeps the byte count rather than its two-decimal MB rendering. Progress is computed on exact rationals. Recipe times are mathematical reals.
- Whitespace and case mapping cover ASCII only. Unicode spaces, Unicode case mapping and Python `strip`'s extra characters are not modelled.
- `localeCompare` is a caller-given collation rank on titles.
- Projects.PartValue: `Number()` of a signed, decimal or exponent part, of a hexadecimal, binary or octal numeral ("0x1A", "0b1", "0o7") and of "Infinity" is read as NaN, not as the number `Number()` gives.
- Projects.SortKey: a duration that reads as NaN ranks as 0. In the page, a NaN comparison counts as a tie instead, which the sample projects never reach.
- Projects.SortProjects: for an input out of order, the relative order of projects with equal keys is not stated; only an input already in order is promised to stay as it is.
- Projects.SortedAndFiltered: the order of equal-key projects is stated only when the filtered list is already in order or the key is unknown.
- Projects.ProjectList.Visible: the order of equal-key projects is stated only when the filtered list is already in order or the key is unknown.
- Missing or mistyped JSON payload fields are not modelled. The replies' fields are options or values of the right type, and a reply without `clips` or `captions` is not modelled.
- The thumbnail extraction of the main and mobile generators is not modelled, because its failure is ignored.
- The ffprobe dimension probe and the recipe filters are not modelled, because no result depends on them.
- The upload, download-clip and thumbnail endpoints, and the endpoint wrappers around the generators, are not modelled.
- How `get_ffmpeg_path` searches for ffmpeg is not modelled: only whether the search succeeded (`ffmpegFound`) is an input.
- The filesystem, ffmpeg, ffprobe, yt-dlp and Whisper are oracles. The caption generator itself is not part of this model; only its three fallback texts, which the phrase tables translate, appear.
- The per-language contents of the phrase tables are stated only through their keys.
- Projects: the thumbnail, views and size fields of a project are not modelled, and neither is the relative "created" label.
- UploadSession.Session.OnUploadProgress: its requires trusts the browser's event to report a positive total no smaller than the bytes loaded; a zero total, which makes the page show NaN, is not modelled.
- UploadSession.LanguageName: codes that are keys of an object's prototype (such as "constructor") are not modelled.
