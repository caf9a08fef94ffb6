/** The action that saves a promotional video from submitted form data: it uploads the file
    first when a new video comes with one, then creates or updates the record. The calls are
    not made here: the method returns the requests it would send, in order, and takes each
    call's outcome as a parameter. */
module CmsActions {
  import opened Wrappers
  import opened Strings
  import opened Http
  import opened PromoVideos

  /** A form-data value: a string or a file. */
  datatype FormValue = Text(s: string) | FileValue(file: UploadFile)

  datatype FormEntry = FormEntry(name: string, value: FormValue)

  /** The outcome the caller receives: `{ success: true, data }` or `{ success: false, error }`. */
  datatype SaveResult = Saved(data: PromoVideo) | NotSaved(error: string)

  const SignedUrlPath: string := "/api/admin/promotional-videos/signed-url"
  const VideosPath: string := "/api/admin/promotional-videos"
  const SaveFallback: string := "Failed to save promotional video"

  /** The address of one video's record. */
  function VideoPath(id: string): string { VideosPath + "/" + id }

  /** `formData.get(name)`: the first value appended under `name`, `null` when there is none. */
  function Get(form: seq<FormEntry>, name: string): Option<FormValue>
    decreases |form|
  {
    if form == [] then None
    else if form[0].name == name then Some(form[0].value)
    else Get(form[1..], name)
  }

  /** Appending under a name changes what `get` returns only when the name was not there yet. */
  lemma {:induction false} GetAfterAppend(form: seq<FormEntry>, e: FormEntry, name: string)
    ensures Get(form + [e], name) ==
      (if Get(form, name).Some? then Get(form, name) else if e.name == name then Some(e.value) else None)
    decreases |form|
  {
    if form == [] {
      assert [] + [e] == [e];
      assert [e][1..] == [];
    } else {
      assert (form + [e])[1..] == form[1..] + [e];
      GetAfterAppend(form[1..], e, name);
    }
  }

  /** A field read as a string; files do not count as strings here. */
  function TextField(form: seq<FormEntry>, name: string): Option<string> {
    match Get(form, name)
    case Some(Text(s)) => Some(s)
    case _ => None
  }

  /** The field read as a file. */
  function FileField(form: seq<FormEntry>, name: string): Option<UploadFile> {
    match Get(form, name)
    case Some(FileValue(f)) => Some(f)
    case _ => None
  }

  /** `String(value)`, the string `parseInt` converts its argument to. */
  function AsString(v: Option<FormValue>): string {
    match v
    case None => "null"
    case Some(Text(s)) => s
    case Some(FileValue(_)) => "[object File]"
  }

  /** `parseInt(formData.get("priority"), 10)`, `None` for `NaN`. */
  function PriorityOf(form: seq<FormEntry>): Option<int> {
    ParseInt10(AsString(Get(form, "priority")))
  }

  /** The payload before `s3Key` is attached. */
  function BasePayload(form: seq<FormEntry>, videoId: Option<string>): VideoPayload {
    VideoPayload(
      TextField(form, "category"),
      Get(form, "hidden") == Some(Text("true")),
      PriorityOf(form),
      OrNull(TextField(form, "startDate")),
      OrNull(TextField(form, "endDate")),
      OrNull(TextField(form, "title")),
      OrNull(TextField(form, "description")),
      videoId,
      None)
  }

  /** What the payload carries, field by field. */
  lemma BasePayloadSpec(form: seq<FormEntry>, videoId: Option<string>)
    ensures var p := BasePayload(form, videoId);
      && (p.hidden <==> Get(form, "hidden") == Some(Text("true")))
      && (p.title.Some? <==> Truthy(TextField(form, "title")))
      && (p.title.Some? ==> p.title == TextField(form, "title"))
      && (p.description.Some? <==> Truthy(TextField(form, "description")))
      && (p.startDate.Some? <==> Truthy(TextField(form, "startDate")))
      && (p.endDate.Some? <==> Truthy(TextField(form, "endDate")))
      && p.videoId == videoId && p.s3Key == None
      && (Get(form, "priority").None? ==> p.priority == None)
  {
    if Get(form, "priority").None? {
      assert AsString(Get(form, "priority")) == "null";
      assert TrimStart("null") == "null";
      assert LeadingDigits("null") == 0;
    }
  }

  /** The caller's view of the save call's outcome. */
  function SaveResultOf(saved: Response<PromoVideo>): SaveResult {
    match saved
    case Ok(v) => Saved(v)
    case Err(e) => NotSaved(ServerErrorOr(e, SaveFallback))
  }

  /** The request for a signed upload address: the title, the description and the file name. */
  function SignedUrlRequestFor(form: seq<FormEntry>, f: UploadFile): Request {
    SignedUrlRequest(SignedUrlPath, Some(OrElse(TextField(form, "title"), "")),
                     Some(OrElse(TextField(form, "description"), "")), f.name)
  }

  /** The create payload after an upload: the new video's id and its storage key. */
  function UploadPayload(form: seq<FormEntry>, f: UploadFile, uploaded: SignedUpload): VideoPayload {
    BasePayload(form, Some(uploaded.videoId)).(s3Key := Some(S3Key(uploaded.videoId, f.name)))
  }

  /** The requests `addOrUpdateVideo` sends, in order, given the outcomes of the signed-address
      and upload calls: an update when there is an id; otherwise, with a file, a signed-address
      request, the upload and a create, stopping at the first failure; otherwise a bare create. */
  function SaveCalls(form: seq<FormEntry>, signed: Response<SignedUpload>, upload: Response<Json>): seq<Request> {
    var id := TextField(form, "id");
    if Truthy(id) then
      [SaveRequest(Put, VideoPath(id.value), BasePayload(form, id))]
    else if FileField(form, "video").None? then
      [SaveRequest(Post, VideosPath, BasePayload(form, id).(s3Key := Some("")))]
    else
      var f := FileField(form, "video").value;
      [SignedUrlRequestFor(form, f)]
      + if signed.Err? then []
        else [UploadRequest(signed.data.signedUrl, f.fileType)]
             + if upload.Err? then [] else [SaveRequest(Post, VideosPath, UploadPayload(form, f, signed.data))]
  }

  /** What `addOrUpdateVideo` resolves to: the first failure, or the save call's outcome. */
  function SaveOutcome(form: seq<FormEntry>, signed: Response<SignedUpload>, upload: Response<Json>, saved: Response<PromoVideo>): SaveResult {
    if !Truthy(TextField(form, "id")) && FileField(form, "video").Some? && signed.Err? then
      NotSaved(ServerErrorOr(signed.error, SaveFallback))
    else if !Truthy(TextField(form, "id")) && FileField(form, "video").Some? && upload.Err? then
      NotSaved(ServerErrorOr(upload.error, SaveFallback))
    else SaveResultOf(saved)
  }

  /** The upload path is taken exactly when there is no id and a file is given; only then is
      more than one request sent, and it sends at most three. */
  lemma UploadPathSpec(form: seq<FormEntry>, signed: Response<SignedUpload>, upload: Response<Json>)
    ensures var calls := SaveCalls(form, signed, upload);
      && 1 <= |calls| <= 3
      && ((!Truthy(TextField(form, "id")) && FileField(form, "video").Some?) <==> calls[0].SignedUrlRequest?)
      && (|calls| > 1 ==> calls[0].SignedUrlRequest? && calls[1] == UploadRequest(signed.data.signedUrl, FileField(form, "video").value.fileType))
  {
  }

  /** Across all paths, a storage key is sent exactly when there is no id, and only updates
      use PUT; an update goes to the record's address with the id as video id, and a create
      goes to the collection's address. */
  lemma SaveRequestSpec(form: seq<FormEntry>, signed: Response<SignedUpload>, upload: Response<Json>)
    ensures forall c :: c in SaveCalls(form, signed, upload) && c.SaveRequest? ==>
      && (c.payload.s3Key.Some? <==> !Truthy(TextField(form, "id")))
      && (c.verb == Put <==> Truthy(TextField(form, "id")))
      && (c.verb == Put ==> c.payload.videoId == TextField(form, "id") && c.path == VideoPath(TextField(form, "id").value))
      && (c.verb == Post ==> c.path == VideosPath)
  {
    var calls := SaveCalls(form, signed, upload);
    var id := TextField(form, "id");
    if !Truthy(id) && FileField(form, "video").Some? {
      var f := FileField(form, "video").value;
      if signed.Err? {
        assert calls == [SignedUrlRequestFor(form, f)];
      } else if upload.Err? {
        assert calls == [SignedUrlRequestFor(form, f), UploadRequest(signed.data.signedUrl, f.fileType)];
      } else {
        assert calls == [SignedUrlRequestFor(form, f), UploadRequest(signed.data.signedUrl, f.fileType),
                         SaveRequest(Post, VideosPath, UploadPayload(form, f, signed.data))];
      }
    }
  }

  /** A create after an upload carries the new video's id and the storage key
      `<videoId>/original.<extension>`. */
  lemma UploadedCreateSpec(form: seq<FormEntry>, signed: Response<SignedUpload>, upload: Response<Json>)
    requires !Truthy(TextField(form, "id")) && FileField(form, "video").Some? && signed.Ok? && upload.Ok?
    ensures var calls := SaveCalls(form, signed, upload);
      && |calls| == 3 && calls[2].SaveRequest? && calls[2].verb == Post
      && calls[2].payload.videoId == Some(signed.data.videoId)
      && calls[2].payload.s3Key == Some(S3Key(signed.data.videoId, FileField(form, "video").value.name))
  {
  }

  /** The save succeeds exactly when the save request was reached and answered with a record,
      and then it hands back that record; every earlier failure carries its server message or
      the fallback. */
  lemma SaveOutcomeSpec(form: seq<FormEntry>, signed: Response<SignedUpload>, upload: Response<Json>, saved: Response<PromoVideo>)
    ensures var calls := SaveCalls(form, signed, upload);
      var r := SaveOutcome(form, signed, upload, saved);
      && (r.Saved? <==> calls[|calls| - 1].SaveRequest? && saved.Ok?)
      && (r.Saved? ==> r.data == saved.data)
      && (r.NotSaved? && !calls[|calls| - 1].SaveRequest? ==>
            r.error == ServerErrorOr(if signed.Err? then signed.error else upload.error, SaveFallback))
      && (r.NotSaved? && calls[|calls| - 1].SaveRequest? ==> r.error == ServerErrorOr(saved.error, SaveFallback))
  {
  }

  /** The upload leg of `addOrUpdateVideo`: ask for a signed address, then put the file there.
      The first failure ends the action with its message. */
  method UploadVideo(form: seq<FormEntry>, f: UploadFile, signed: Response<SignedUpload>, upload: Response<Json>)
    returns (calls: seq<Request>, failure: Option<SaveResult>)
    ensures calls == [SignedUrlRequestFor(form, f)] + if signed.Err? then [] else [UploadRequest(signed.data.signedUrl, f.fileType)]
    ensures failure == if signed.Err? then Some(NotSaved(ServerErrorOr(signed.error, SaveFallback)))
                       else if upload.Err? then Some(NotSaved(ServerErrorOr(upload.error, SaveFallback)))
                       else None
  {
    calls := [SignedUrlRequestFor(form, f)];
    if signed.Err? {
      return calls, Some(NotSaved(ServerErrorOr(signed.error, SaveFallback)));
    }
    calls := calls + [UploadRequest(signed.data.signedUrl, f.fileType)];
    if upload.Err? {
      return calls, Some(NotSaved(ServerErrorOr(upload.error, SaveFallback)));
    }
    failure := None;
  }

  /** `addOrUpdateVideo(formData)`. */
  method AddOrUpdateVideo(form: seq<FormEntry>, signed: Response<SignedUpload>, upload: Response<Json>, saved: Response<PromoVideo>)
    returns (calls: seq<Request>, result: SaveResult)
    ensures calls == SaveCalls(form, signed, upload)
    ensures result == SaveOutcome(form, signed, upload, saved)
  {
    var id := TextField(form, "id");
    var videoFile := FileField(form, "video");
    var videoId: Option<string>;
    var s3Key: string;
    calls := [];
    if !Truthy(id) && videoFile.Some? {
      var f := videoFile.value;
      var failure;
      calls, failure := UploadVideo(form, f, signed, upload);
      if failure.Some? {
        result := failure.value;
        return;
      }
      videoId := Some(signed.data.videoId);
      s3Key := S3Key(signed.data.videoId, f.name);
      assert BasePayload(form, videoId).(s3Key := Some(s3Key)) == UploadPayload(form, f, signed.data);
    } else {
      videoId := id;
      s3Key := "";
    }
    var payload := BasePayload(form, videoId);
    if !Truthy(id) {
      payload := payload.(s3Key := Some(s3Key));
    }
    if Truthy(id) {
      calls := calls + [SaveRequest(Put, VideoPath(id.value), payload)];
    } else {
      calls := calls + [SaveRequest(Post, VideosPath, payload)];
    }
    result := SaveResultOf(saved);
  }
}
