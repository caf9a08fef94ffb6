/** One card of the video grid: its thumbnail opens the player, its buttons show or hide the
    video, open it for editing and delete it, each acting on the grid's state. The calls are
    not made here: the request is returned and the server's answer is a parameter. */
module VideoCard {
  import opened Wrappers
  import opened Seqs
  import opened Http
  import opened Lists
  import opened PromoVideos
  import opened CmsActions
  import opened VideoGrid

  const ToggleFallback: string := "Failed to toggle visibility"
  const DeleteFallback: string := "Failed to delete promotional video"
  const DeletedNotice: string := "Promotional video deleted successfully!"

  /** The avatar letter: the creator's first character, `A` when there is none. */
  function AvatarInitial(createdBy: string): (r: string)
    ensures |r| == 1
    ensures createdBy != [] ==> r[0] == createdBy[0]
    ensures createdBy == [] ==> r == "A"
  {
    if createdBy != [] then [createdBy[0]] else "A"
  }

  /** The card's heading: the title, `Untitled` when it is missing or empty. */
  function DisplayTitle(title: Option<string>): (r: string)
    ensures r != ""
    ensures Truthy(title) ==> r == title.value
    ensures !Truthy(title) ==> r == "Untitled"
  {
    OrElse(title, "Untitled")
  }

  /** The notice after a toggle names the state the video was taken out of. */
  function ToggledNotice(wasHidden: bool): string {
    "Video " + (if wasHidden then "shown" else "hidden") + " successfully!"
  }

  /** The notice differs by the state before the toggle, so showing and hiding are told apart. */
  lemma ToggledNoticeDistinct()
    ensures ToggledNotice(true) != ToggledNotice(false)
  {
    assert ToggledNotice(true)[6] == 's' && ToggledNotice(false)[6] == 'h';
  }

  /** After a delete, the total less the number of listed videos is what it was: the listed
      video leaves the list exactly once when ids are distinct. */
  lemma DeleteKeepsCountInStep(videos: seq<PromoVideo>, total: int, id: string)
    requires UniqueKeys(videos, VideoKey) && id in Keys(videos, VideoKey)
    ensures (total - 1) - |RemoveByKey(videos, VideoKey, id)| == total - |videos|
    ensures UniqueKeys(RemoveByKey(videos, VideoKey, id), VideoKey)
  {
    RemoveSize(videos, VideoKey, id);
    RemoveKeepsUnique(videos, VideoKey, id);
  }

  /** A toggle answered with the listed video keeps the list's length, its ids and the total. */
  lemma ToggleKeepsList(videos: seq<PromoVideo>, reply: PromoVideo)
    requires UniqueKeys(videos, VideoKey) && reply.id in Keys(videos, VideoKey)
    ensures var r := ReplaceByKey(videos, VideoKey, reply);
      && |r| == |videos| && Keys(r, VideoKey) == Keys(videos, VideoKey)
      && reply in r && UniqueKeys(r, VideoKey)
  {
    ReplaceByKeySpec(videos, VideoKey, reply);
    ReplacePresent(videos, VideoKey, reply);
    ReplaceKeepsUnique(videos, VideoKey, reply);
  }

  /** The thumbnail: the player opens on the video with its player addresses filled in. */
  method ThumbnailClick(grid: Grid, video: PromoVideo)
    modifies grid
    ensures grid.selectedVideo == Some(WithPlayerUrls(video)) && grid.isPlayerModalVisible
    ensures grid.videos == old(grid.videos) && grid.total == old(grid.total)
    ensures grid.isModalVisible == old(grid.isModalVisible) && grid.editingVideo == old(grid.editingVideo)
    ensures grid.currentPage == old(grid.currentPage) && grid.currentPageSize == old(grid.currentPageSize)
    ensures grid.searchParams == old(grid.searchParams) && grid.fetching == old(grid.fetching)
  {
    grid.selectedVideo := Some(WithPlayerUrls(video));
    grid.isPlayerModalVisible := true;
  }

  /** The edit button: the modal opens on this video. */
  method Edit(grid: Grid, video: PromoVideo)
    modifies grid
    ensures grid.editingVideo == Some(video) && grid.isModalVisible
    ensures grid.videos == old(grid.videos) && grid.total == old(grid.total)
    ensures grid.selectedVideo == old(grid.selectedVideo) && grid.isPlayerModalVisible == old(grid.isPlayerModalVisible)
    ensures grid.currentPage == old(grid.currentPage) && grid.currentPageSize == old(grid.currentPageSize)
    ensures grid.searchParams == old(grid.searchParams) && grid.fetching == old(grid.fetching)
  {
    grid.editingVideo := Some(video);
    grid.isModalVisible := true;
  }

  /** `handleToggleHidden`: asks for the opposite visibility; the record the server returns
      replaces the one with its id. A failure leaves the list alone. */
  method ToggleHidden(grid: Grid, video: PromoVideo, response: Response<PromoVideo>) returns (call: Request, toast: Toast)
    modifies grid
    ensures call == ToggleRequest(VideoPath(video.id), !video.hidden)
    ensures response.Ok? ==> grid.videos == ReplaceByKey(old(grid.videos), VideoKey, response.data)
                             && toast == SuccessToast(ToggledNotice(video.hidden))
    ensures response.Err? ==> grid.videos == old(grid.videos)
                              && toast == ErrorToast(DataErrorOr(response.error, ToggleFallback))
    ensures grid.total == old(grid.total) && grid.editingVideo == old(grid.editingVideo)
    ensures grid.isModalVisible == old(grid.isModalVisible) && grid.selectedVideo == old(grid.selectedVideo)
    ensures grid.isPlayerModalVisible == old(grid.isPlayerModalVisible)
    ensures grid.currentPage == old(grid.currentPage) && grid.currentPageSize == old(grid.currentPageSize)
    ensures grid.searchParams == old(grid.searchParams) && grid.fetching == old(grid.fetching)
  {
    call := ToggleRequest(VideoPath(video.id), !video.hidden);
    match response {
      case Ok(data) =>
        grid.videos := ReplaceByKey(grid.videos, VideoKey, data);
        toast := SuccessToast(ToggledNotice(video.hidden));
      case Err(e) =>
        toast := ErrorToast(DataErrorOr(e, ToggleFallback));
    }
  }

  /** `handleDelete`: once the server agrees, the video leaves the list and the total drops
      by one. A failure leaves both alone. */
  method Delete(grid: Grid, video: PromoVideo, response: Response<Json>) returns (call: Request, toast: Toast)
    modifies grid
    ensures call == DeleteRequest(VideoPath(video.id))
    ensures response.Ok? ==> grid.videos == RemoveByKey(old(grid.videos), VideoKey, video.id)
                             && grid.total == old(grid.total) - 1 && toast == SuccessToast(DeletedNotice)
    ensures response.Err? ==> grid.videos == old(grid.videos) && grid.total == old(grid.total)
                              && toast == ErrorToast(DataErrorOr(response.error, DeleteFallback))
    ensures grid.editingVideo == old(grid.editingVideo) && grid.isModalVisible == old(grid.isModalVisible)
    ensures grid.selectedVideo == old(grid.selectedVideo) && grid.isPlayerModalVisible == old(grid.isPlayerModalVisible)
    ensures grid.currentPage == old(grid.currentPage) && grid.currentPageSize == old(grid.currentPageSize)
    ensures grid.searchParams == old(grid.searchParams) && grid.fetching == old(grid.fetching)
  {
    call := DeleteRequest(VideoPath(video.id));
    match response {
      case Ok(_) =>
        grid.videos := RemoveByKey(grid.videos, VideoKey, video.id);
        grid.total := grid.total - 1;
        toast := SuccessToast(DeletedNotice);
      case Err(e) =>
        toast := ErrorToast(DataErrorOr(e, DeleteFallback));
    }
  }
}
