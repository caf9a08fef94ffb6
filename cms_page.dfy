/** The promotional-videos page: the list of videos, a modal form that creates a video (after
    uploading its file to a signed address) or edits one, a visibility switch, deletion, and
    a player opened from the thumbnail. The calls are not made here: each handler returns the
    requests it would send, in order, and takes each call's outcome as a parameter. */
module CmsPage {
  import opened Wrappers
  import opened Http
  import opened Lists
  import opened PromoVideos

  /** The values of the modal form. Dates are opaque strings. */
  datatype FormValues = FormValues(
    category: string,
    hidden: bool,
    priority: Option<int>,
    startDate: Option<string>,
    endDate: Option<string>,
    title: Option<string>,
    description: Option<string>)

  const VideosPath: string := "/api/user/admin/promotional-videos"
  const SignedUrlPath: string := "/api/user/admin/promotional-videos/signed-url"

  const NoFileMessage: string := "Please upload a video file"
  const SaveFallback: string := "Failed to save promotional video"
  const FetchFallback: string := "Failed to fetch promotional videos"
  const ToggleFallback: string := "Failed to toggle visibility"
  const DeleteFallback: string := "Failed to delete promotional video"

  /** The values a new-video form starts with. */
  const NewVideoDefaults: FormValues :=
    FormValues(CategoryName(Promotional), true, Some(0), None, None, Some(""), Some(""))

  function VideoPath(id: string): string { VideosPath + "/" + id }

  /** The save payload: empty texts become `null`, and the upload key is sent only when
      creating. */
  function PayloadFor(values: FormValues, videoId: string, creating: bool, s3Key: string): VideoPayload {
    VideoPayload(
      Some(values.category),
      values.hidden,
      values.priority,
      values.startDate,
      values.endDate,
      OrNull(values.title),
      OrNull(values.description),
      Some(videoId),
      if creating then Some(s3Key) else None)
  }

  /** What the payload carries, field by field. */
  lemma PayloadSpec(values: FormValues, videoId: string, creating: bool, s3Key: string)
    ensures var p := PayloadFor(values, videoId, creating, s3Key);
      && (p.title.Some? <==> Truthy(values.title)) && (p.title.Some? ==> p.title == values.title)
      && (p.description.Some? <==> Truthy(values.description))
      && (p.startDate.None? <==> values.startDate.None?) && (p.endDate.None? <==> values.endDate.None?)
      && p.videoId == Some(videoId)
      && (p.s3Key.Some? <==> creating) && (creating ==> p.s3Key == Some(s3Key))
  {
  }

  /** What the form shows for an existing video: its own fields, with empty dates as `null`. */
  function FormOf(v: PromoVideo): FormValues {
    FormValues(CategoryName(v.category), v.hidden, Some(v.priority), OrNull(v.startDate), OrNull(v.endDate), v.title, v.description)
  }

  /** Saving an unchanged edit form sends back the video's own fields. */
  lemma EditFormRoundTrip(v: PromoVideo)
    requires v.title != Some("") && v.description != Some("")
    ensures var p := PayloadFor(FormOf(v), v.videoId, false, "");
      && p.category == Some(CategoryName(v.category)) && p.hidden == v.hidden && p.priority == Some(v.priority)
      && p.title == v.title && p.description == v.description
      && p.videoId == Some(v.videoId) && p.s3Key == None
  {
  }

  /** The requests `handleAddOrUpdateVideo` sends, in order: an update when editing; for a new
      video with a file, an upload address request, the upload and a create, stopping at the
      first failure; for a new video without a file, none. */
  function SaveCalls(values: FormValues, editing: Option<PromoVideo>, fileList: seq<UploadFile>,
                     signed: Response<SignedUpload>, upload: Response<Json>): seq<Request>
  {
    if editing.Some? then
      [SaveRequest(Put, VideoPath(editing.value.id), PayloadFor(values, editing.value.videoId, false, ""))]
    else if fileList == [] then []
    else
      var f := fileList[0];
      [SignedUrlRequest(SignedUrlPath, values.title, values.description, f.name)]
      + if signed.Err? then []
        else [UploadRequest(signed.data.signedUrl, f.fileType)]
             + if upload.Err? then []
               else [SaveRequest(Post, VideosPath, PayloadFor(values, signed.data.videoId, true, S3Key(signed.data.videoId, f.name)))]
  }

  /** The message of the first failure before the save request, if there is one. */
  function EarlyFailure(editing: Option<PromoVideo>, fileList: seq<UploadFile>,
                        signed: Response<SignedUpload>, upload: Response<Json>): Option<string>
  {
    if editing.Some? then None
    else if fileList == [] then Some(NoFileMessage)
    else if signed.Err? then Some(ServerErrorOr(signed.error, SaveFallback))
    else if upload.Err? then Some(ServerErrorOr(upload.error, SaveFallback))
    else None
  }

  /** The save request is sent, as the last request, exactly when no earlier step failed; a
      new video is never saved without a file; editing sends one update with the video's own
      `videoId` and no key; a create carries the key `<videoId>/original.<extension>` of the
      uploaded file. */
  lemma SaveCallsSpec(values: FormValues, editing: Option<PromoVideo>, fileList: seq<UploadFile>,
                      signed: Response<SignedUpload>, upload: Response<Json>)
    ensures var calls := SaveCalls(values, editing, fileList, signed, upload);
      && |calls| <= 3
      && (EarlyFailure(editing, fileList, signed, upload).None? <==> calls != [] && calls[|calls| - 1].SaveRequest?)
      && (editing.None? && fileList == [] ==> calls == [])
      && (forall c :: c in calls && c.SaveRequest? ==>
            (c.verb == Put <==> editing.Some?) && (c.payload.s3Key.Some? <==> editing.None?))
      && (editing.Some? ==> calls[0].payload.videoId == Some(editing.value.videoId) && calls[0].path == VideoPath(editing.value.id))
      && (editing.None? && fileList != [] && signed.Ok? && upload.Ok? ==>
            calls[2].payload.s3Key == Some(S3Key(signed.data.videoId, fileList[0].name))
            && calls[2].payload.videoId == Some(signed.data.videoId))
  {
    var calls := SaveCalls(values, editing, fileList, signed, upload);
    if editing.None? && fileList != [] {
      var f := fileList[0];
      if signed.Err? {
        assert calls == [SignedUrlRequest(SignedUrlPath, values.title, values.description, f.name)];
      } else if upload.Err? {
        assert calls == [SignedUrlRequest(SignedUrlPath, values.title, values.description, f.name),
                         UploadRequest(signed.data.signedUrl, f.fileType)];
      } else {
        assert calls == [SignedUrlRequest(SignedUrlPath, values.title, values.description, f.name),
                         UploadRequest(signed.data.signedUrl, f.fileType),
                         SaveRequest(Post, VideosPath, PayloadFor(values, signed.data.videoId, true, S3Key(signed.data.videoId, f.name)))];
      }
    }
  }

  /** The page state. */
  class VideosPage {
    var videos: seq<PromoVideo>
    var isModalVisible: bool
    var isPlayerModalVisible: bool
    var selectedVideo: Option<PromoVideo>
    var editingVideo: Option<PromoVideo>
    var loading: bool
    var fileList: seq<UploadFile>

    constructor()
      ensures videos == [] && !isModalVisible && !isPlayerModalVisible && selectedVideo == None
      ensures editingVideo == None && !loading && fileList == []
    {
      videos := [];
      isModalVisible := false;
      isPlayerModalVisible := false;
      selectedVideo := None;
      editingVideo := None;
      loading := false;
      fileList := [];
    }

    /** `fetchVideos`. */
    method FetchVideos(response: Response<seq<PromoVideo>>) returns (toast: Option<Toast>)
      modifies this
      ensures response.Ok? ==> videos == response.data && toast == None
      ensures response.Err? ==> videos == old(videos) && toast == Some(ErrorToast(DataErrorOr(response.error, FetchFallback)))
      ensures !loading && isModalVisible == old(isModalVisible) && isPlayerModalVisible == old(isPlayerModalVisible)
      ensures selectedVideo == old(selectedVideo) && editingVideo == old(editingVideo) && fileList == old(fileList)
    {
      loading := true;
      match response {
        case Ok(list) =>
          videos := list;
          toast := None;
        case Err(e) =>
          toast := Some(ErrorToast(DataErrorOr(e, FetchFallback)));
      }
      loading := false;
    }

    /** The requests of `handleAddOrUpdateVideo` up to the save, and the message of the first
        failure before it, if any. */
    method Prepare(values: FormValues, signed: Response<SignedUpload>, upload: Response<Json>)
      returns (calls: seq<Request>, failure: Option<string>)
      ensures calls == SaveCalls(values, editingVideo, fileList, signed, upload)
      ensures failure == EarlyFailure(editingVideo, fileList, signed, upload)
    {
      calls := [];
      failure := None;
      var videoId: string;
      var s3Key: string;
      if editingVideo.None? {
        if fileList == [] {
          failure := Some(NoFileMessage);
          return;
        }
        var f := fileList[0];
        calls := calls + [SignedUrlRequest(SignedUrlPath, values.title, values.description, f.name)];
        if signed.Err? {
          failure := Some(ServerErrorOr(signed.error, SaveFallback));
          return;
        }
        videoId := signed.data.videoId;
        s3Key := S3Key(videoId, f.name);
        calls := calls + [UploadRequest(signed.data.signedUrl, f.fileType)];
        if upload.Err? {
          failure := Some(ServerErrorOr(upload.error, SaveFallback));
          return;
        }
      } else {
        videoId := editingVideo.value.videoId;
        s3Key := "";
      }
      var payload := PayloadFor(values, videoId, editingVideo.None?, s3Key);
      if editingVideo.Some? {
        calls := calls + [SaveRequest(Put, VideoPath(editingVideo.value.id), payload)];
      } else {
        calls := calls + [SaveRequest(Post, VideosPath, payload)];
      }
    }

    /** `handleAddOrUpdateVideo`. The requests are those of `SaveCalls`. When a step before the
        save fails (no file for a new video, no upload address, a failed upload) its message
        is shown and nothing else changes. Once saved, an edit puts the returned video in place
        of the one with its id, a create appends it, and the modal closes with the editing
        target and the file list cleared; a failed save leaves them and the list as they were. */
    method AddOrUpdateVideo(values: FormValues, signed: Response<SignedUpload>, upload: Response<Json>, saved: Response<PromoVideo>)
      returns (calls: seq<Request>, toast: Toast)
      modifies this
      ensures calls == SaveCalls(values, old(editingVideo), old(fileList), signed, upload)
      ensures var failure := EarlyFailure(old(editingVideo), old(fileList), signed, upload);
        && (failure.Some? ==> toast == ErrorToast(failure.value))
        && (failure.None? && saved.Ok? && old(editingVideo).Some? ==>
              videos == ReplaceByKey(old(videos), VideoKey, saved.data) && toast == SuccessToast("Promotional video updated successfully!"))
        && (failure.None? && saved.Ok? && old(editingVideo).None? ==>
              videos == old(videos) + [saved.data] && toast == SuccessToast("Promotional video added successfully!"))
        && (failure.None? && saved.Ok? ==> !isModalVisible && editingVideo == None && fileList == [])
        && (failure.None? && saved.Err? ==> toast == ErrorToast(ServerErrorOr(saved.error, SaveFallback)))
        && (failure.Some? || saved.Err? ==>
              videos == old(videos) && isModalVisible == old(isModalVisible)
              && editingVideo == old(editingVideo) && fileList == old(fileList))
      ensures !loading && isPlayerModalVisible == old(isPlayerModalVisible) && selectedVideo == old(selectedVideo)
    {
      loading := true;
      var failure;
      calls, failure := Prepare(values, signed, upload);
      if failure.Some? {
        toast := ErrorToast(failure.value);
        loading := false;
        return;
      }
      toast := Settle(saved);
      loading := false;
    }

    /** What `handleAddOrUpdateVideo` does with the save call's outcome. */
    method Settle(saved: Response<PromoVideo>) returns (toast: Toast)
      modifies this
      ensures saved.Ok? && old(editingVideo).Some? ==>
        videos == ReplaceByKey(old(videos), VideoKey, saved.data) && toast == SuccessToast("Promotional video updated successfully!")
      ensures saved.Ok? && old(editingVideo).None? ==>
        videos == old(videos) + [saved.data] && toast == SuccessToast("Promotional video added successfully!")
      ensures saved.Ok? ==> !isModalVisible && editingVideo == None && fileList == []
      ensures saved.Err? ==>
        && toast == ErrorToast(ServerErrorOr(saved.error, SaveFallback))
        && videos == old(videos) && isModalVisible == old(isModalVisible)
        && editingVideo == old(editingVideo) && fileList == old(fileList)
      ensures loading == old(loading) && isPlayerModalVisible == old(isPlayerModalVisible) && selectedVideo == old(selectedVideo)
    {
      match saved {
        case Ok(v) =>
          if editingVideo.Some? {
            videos := ReplaceByKey(videos, VideoKey, v);
            toast := SuccessToast("Promotional video updated successfully!");
          } else {
            videos := videos + [v];
            toast := SuccessToast("Promotional video added successfully!");
          }
          isModalVisible := false;
          editingVideo := None;
          fileList := [];
        case Err(e) =>
          toast := ErrorToast(ServerErrorOr(e, SaveFallback));
      }
    }

    /** `handleToggleHidden`: asks for the opposite visibility and puts the returned video in
        place of the one with its id. */
    method ToggleHidden(id: string, hidden: bool, response: Response<PromoVideo>) returns (call: Request, toast: Toast)
      modifies this
      ensures call == ToggleRequest(VideoPath(id), !hidden)
      ensures response.Ok? ==> videos == ReplaceByKey(old(videos), VideoKey, response.data)
      ensures response.Ok? ==> toast == SuccessToast(if hidden then "Video shown successfully!" else "Video hidden successfully!")
      ensures response.Err? ==> videos == old(videos) && toast == ErrorToast(DataErrorOr(response.error, ToggleFallback))
      ensures !loading && isModalVisible == old(isModalVisible) && isPlayerModalVisible == old(isPlayerModalVisible)
      ensures selectedVideo == old(selectedVideo) && editingVideo == old(editingVideo) && fileList == old(fileList)
    {
      loading := true;
      call := ToggleRequest(VideoPath(id), !hidden);
      match response {
        case Ok(v) =>
          videos := ReplaceByKey(videos, VideoKey, v);
          toast := SuccessToast(if hidden then "Video shown successfully!" else "Video hidden successfully!");
        case Err(e) =>
          toast := ErrorToast(DataErrorOr(e, ToggleFallback));
      }
      loading := false;
    }

    /** `handleDeleteVideo`: every video with the id leaves the list. */
    method DeleteVideo(id: string, response: Response<Json>) returns (call: Request, toast: Toast)
      modifies this
      ensures call == DeleteRequest(VideoPath(id))
      ensures response.Ok? ==> videos == RemoveByKey(old(videos), VideoKey, id)
      ensures response.Ok? ==> toast == SuccessToast("Promotional video deleted successfully!")
      ensures response.Err? ==> videos == old(videos) && toast == ErrorToast(DataErrorOr(response.error, DeleteFallback))
      ensures !loading && isModalVisible == old(isModalVisible) && isPlayerModalVisible == old(isPlayerModalVisible)
      ensures selectedVideo == old(selectedVideo) && editingVideo == old(editingVideo) && fileList == old(fileList)
    {
      loading := true;
      call := DeleteRequest(VideoPath(id));
      if response.Ok? {
        videos := RemoveByKey(videos, VideoKey, id);
        toast := SuccessToast("Promotional video deleted successfully!");
      } else {
        toast := ErrorToast(DataErrorOr(response.error, DeleteFallback));
      }
      loading := false;
    }

    /** `handleThumbnailClick`: opens the player on the video with its addresses filled in. */
    method ThumbnailClick(video: PromoVideo)
      modifies this
      ensures selectedVideo == Some(WithPlayerUrls(video)) && isPlayerModalVisible
      ensures videos == old(videos) && isModalVisible == old(isModalVisible) && editingVideo == old(editingVideo)
      ensures loading == old(loading) && fileList == old(fileList)
    {
      var v := video;
      v := WithPlayerUrls(v);
      selectedVideo := Some(v);
      isPlayerModalVisible := true;
    }

    /** The player modal's `onCancel`: hides the player and keeps the selected video. */
    method ClosePlayer()
      modifies this
      ensures !isPlayerModalVisible && selectedVideo == old(selectedVideo)
      ensures videos == old(videos) && isModalVisible == old(isModalVisible) && editingVideo == old(editingVideo)
      ensures loading == old(loading) && fileList == old(fileList)
    {
      isPlayerModalVisible := false;
    }

    /** `showModal`: opens the form on the given video, or on the new-video defaults. */
    method ShowModal(video: Option<PromoVideo>) returns (form: FormValues)
      modifies this
      ensures editingVideo == video && isModalVisible
      ensures form == (if video.Some? then FormOf(video.value) else NewVideoDefaults)
      ensures videos == old(videos) && isPlayerModalVisible == old(isPlayerModalVisible)
      ensures selectedVideo == old(selectedVideo) && loading == old(loading) && fileList == old(fileList)
    {
      editingVideo := video;
      form := if video.Some? then FormOf(video.value) else NewVideoDefaults;
      isModalVisible := true;
    }
  }
}
