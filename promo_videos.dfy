/** Promotional videos as the CMS pages hold them, the requests the pages send about them,
    and the pieces of them those pages derive: the player URLs, the upload key and the save
    payload. Dates are opaque strings. */
module PromoVideos {
  import opened Wrappers
  import opened Strings
  import opened Http

  datatype Category = Promotional | NewFeature

  datatype PromoVideo = PromoVideo(
    id: string,
    category: Category,
    hidden: bool,
    videoId: string,
    priority: int,
    startDate: Option<string>,
    endDate: Option<string>,
    title: Option<string>,
    description: Option<string>,
    createdBy: string,
    createdAt: string,
    updatedAt: string,
    hslUrl: Option<string>,
    thumbnailsUrl: Option<string>,
    posterUrl: Option<string>)

  function VideoKey(v: PromoVideo): string { v.id }

  /** A file picked in the upload control. */
  datatype UploadFile = UploadFile(name: string, fileType: string)

  /** What the signed-upload endpoint answers. */
  datatype SignedUpload = SignedUpload(videoId: string, signedUrl: string)

  /** The body of a create or update call; `None` is sent as `null`, or not sent at all for
      `s3Key`. The category and the priority are whatever the form produced. */
  datatype VideoPayload = VideoPayload(
    category: Option<string>,
    hidden: bool,
    priority: Option<int>,
    startDate: Option<string>,
    endDate: Option<string>,
    title: Option<string>,
    description: Option<string>,
    videoId: Option<string>,
    s3Key: Option<string>)

  datatype Verb = Post | Put | Delete

  /** The calls the CMS pages make. */
  datatype Request =
    | SignedUrlRequest(path: string, title: Option<string>, description: Option<string>, fileName: string)
    | UploadRequest(url: string, contentType: string)
    | SaveRequest(verb: Verb, path: string, payload: VideoPayload)
    | ToggleRequest(path: string, hidden: bool)
    | DeleteRequest(path: string)

  function CategoryName(c: Category): string {
    match c
    case Promotional => "PROMOTIONAL"
    case NewFeature => "NEW_FEATURE"
  }

  /** `x || null` for an optional string: an empty string becomes `null`. */
  function OrNull(x: Option<string>): (r: Option<string>)
    ensures Truthy(x) ==> r == x
    ensures !Truthy(x) ==> r == None
  {
    if Truthy(x) then x else None
  }

  function ThumbnailUrl(videoId: string): string {
    "/gcs/" + videoId + "/thumbnails/thumb00001.jpg"
  }

  function HlsUrl(videoId: string): string {
    "/gcs/" + videoId + "/master.m3u8"
  }

  /** The video handed to the player: the same video with its thumbnail and HLS addresses. */
  function WithPlayerUrls(v: PromoVideo): PromoVideo {
    v.(thumbnailsUrl := Some(ThumbnailUrl(v.videoId)), hslUrl := Some(HlsUrl(v.videoId)))
  }

  /** Only the two addresses change, both live under the video's own folder, and clicking
      again changes nothing more. */
  lemma PlayerUrlsSpec(v: PromoVideo)
    ensures var w := WithPlayerUrls(v);
      && w.(thumbnailsUrl := v.thumbnailsUrl, hslUrl := v.hslUrl) == v
      && w.thumbnailsUrl.Some? && StartsWith(w.thumbnailsUrl.value, "/gcs/" + v.videoId + "/")
      && w.hslUrl.Some? && StartsWith(w.hslUrl.value, "/gcs/" + v.videoId + "/")
      && WithPlayerUrls(w) == w
  {
    var prefix := "/gcs/" + v.videoId + "/";
    assert ThumbnailUrl(v.videoId) == prefix + "thumbnails/thumb00001.jpg";
    assert HlsUrl(v.videoId) == prefix + "master.m3u8";
    assert (prefix + "thumbnails/thumb00001.jpg")[..|prefix|] == prefix;
    assert (prefix + "master.m3u8")[..|prefix|] == prefix;
  }

  /** Where the uploaded original is stored: `<videoId>/original.<extension>`, the extension
      being what follows the last dot of the file name (the whole name when it has none). */
  function S3Key(videoId: string, fileName: string): string {
    videoId + "/original." + LastPiece(fileName, ".")
  }

  /** The extension in the key is a dot-free suffix of the file name; a name without a dot
      is used whole. */
  lemma S3KeySpec(videoId: string, fileName: string)
    ensures var ext := LastPiece(fileName, ".");
      && S3Key(videoId, fileName) == videoId + "/original." + ext
      && |ext| <= |fileName| && fileName[|fileName| - |ext|..] == ext
      && !Includes(ext, ".")
      && (IndexOf(fileName, ".").None? ==> ext == fileName)
      && (IndexOf(fileName, ".").Some? ==> |ext| < |fileName| && fileName[|fileName| - |ext| - 1] == '.')
  {
    LastPieceSpec(fileName, ".");
    var ext := LastPiece(fileName, ".");
    if IndexOf(fileName, ".").Some? {
      assert fileName[|fileName| - |ext| - 1..|fileName| - |ext|] == ".";
    }
  }

  /** Whatever precedes the last dot, the key takes the extension after it. */
  lemma S3KeyAfterLastDot(videoId: string, stem: string, ext: string)
    requires forall j :: 0 <= j < |ext| ==> ext[j] != '.'
    ensures S3Key(videoId, stem + "." + ext) == videoId + "/original." + ext
  {
    LastPieceAfterSeparator(stem, ".", ext);
  }
}
