/** The JSON records the backend produces and the frontend stores: clips, caption
    tracks, AI thumbnails and clip-listing entries. */
module Media {
  import opened Wrappers

  /** A clip record. The main generator and the import fallback fill `score` and
      `format`; mobile clips carry neither. Paths are relative to the API base URL. */
  datatype Clip = Clip(
    id: string,
    title: string,
    duration: string,
    score: Option<int>,
    path: string,
    format: Option<string>,
    aspect: string,
    platform: string,
    thumbnail: string)

  datatype Segment = Segment(start: real, end: real, text: string)

  /** A caption track as returned by the caption and translation endpoints;
      `originalLanguage` is present on translations only. */
  datatype Captions = Captions(language: string, originalLanguage: Option<string>, segments: seq<Segment>)

  /** An entry of the AI-thumbnail list; `kind` is the JSON key `type`. */
  datatype AiThumbnail = AiThumbnail(clipId: string, thumbnail: string, timestamp: int, kind: string)

  /** An entry of the clip listing of a project. */
  datatype ListedClip = ListedClip(id: string, title: string, downloadUrl: string)
}
