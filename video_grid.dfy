/** The paginated grid of promotional videos: its list, page, page size and total start from
    the values the server rendered; a page change rewrites the `page` and `pageSize` query
    parameters of the address and fetches that page; a refresh fetches the current page again.
    Navigation and the calls are not made here: the address pushed and the query sent are
    returned, and the fetch's outcome is a parameter. */
module VideoGrid {
  import opened Wrappers
  import opened Seqs
  import opened Strings
  import opened Http
  import opened Paging
  import opened PromoVideos

  // ---- The address's query string (`URLSearchParams`) ----

  datatype Param = Param(name: string, value: string)

  function NameIsNot(name: string): Param -> bool { (p: Param) => p.name != name }

  /** `params.get(name)`: the value of the first pair with that name. */
  function GetParam(ps: seq<Param>, name: string): Option<string>
    decreases |ps|
  {
    if ps == [] then None
    else if ps[0].name == name then Some(ps[0].value)
    else GetParam(ps[1..], name)
  }

  /** `params.set(name, value)`: the first pair with that name takes the value and the later
      ones are dropped; without such a pair, a new one goes at the end. */
  function SetParam(ps: seq<Param>, name: string, value: string): seq<Param>
    decreases |ps|
  {
    if ps == [] then [Param(name, value)]
    else if ps[0].name == name then [Param(name, value)] + Filter(ps[1..], NameIsNot(name))
    else [ps[0]] + SetParam(ps[1..], name, value)
  }

  /** After `set`, `get` returns the new value, exactly one pair has the name, and the pairs
      with other names are those of before, in the same order. */
  lemma {:induction false} SetParamSpec(ps: seq<Param>, name: string, value: string)
    ensures var r := SetParam(ps, name, value);
      && GetParam(r, name) == Some(value)
      && |Filter(r, Not(NameIsNot(name)))| == 1
      && Filter(r, NameIsNot(name)) == Filter(ps, NameIsNot(name))
    decreases |ps|
  {
    var r := SetParam(ps, name, value);
    if ps == [] {
      assert r == [Param(name, value)];
      assert r[1..] == [];
    } else if ps[0].name == name {
      var rest := Filter(ps[1..], NameIsNot(name));
      assert r == [Param(name, value)] + rest;
      assert r[1..] == rest;
      FilterNone(rest, Not(NameIsNot(name)));
      FilterAll(rest, NameIsNot(name));
    } else {
      SetParamSpec(ps[1..], name, value);
      assert r == [ps[0]] + SetParam(ps[1..], name, value);
      assert r[1..] == SetParam(ps[1..], name, value);
    }
  }

  /** Setting a name leaves the value under every other name as it was. */
  lemma {:induction false} SetParamOthers(ps: seq<Param>, name: string, value: string, other: string)
    requires other != name
    ensures GetParam(SetParam(ps, name, value), other) == GetParam(ps, other)
    decreases |ps|
  {
    var r := SetParam(ps, name, value);
    if ps == [] {
      assert r[1..] == [];
    } else if ps[0].name == name {
      assert r[1..] == Filter(ps[1..], NameIsNot(name));
      GetOfFilterOthers(ps[1..], name, other);
    } else {
      SetParamOthers(ps[1..], name, value, other);
      assert r[1..] == SetParam(ps[1..], name, value);
    }
  }

  /** Dropping the pairs named `name` does not change the value under another name. */
  lemma {:induction false} GetOfFilterOthers(ps: seq<Param>, name: string, other: string)
    requires other != name
    ensures GetParam(Filter(ps, NameIsNot(name)), other) == GetParam(ps, other)
    decreases |ps|
  {
    if ps != [] {
      GetOfFilterOthers(ps[1..], name, other);
      var rest := Filter(ps[1..], NameIsNot(name));
      var r := Filter(ps, NameIsNot(name));
      if ps[0].name != name {
        assert NameIsNot(name)(ps[0]);
        assert r == [ps[0]] + rest;
        assert r[0] == ps[0] && r[1..] == rest;
      } else {
        assert !NameIsNot(name)(ps[0]);
        assert r == rest;
      }
    }
  }

  /** `params.toString()`, without percent-encoding. */
  function ParamsToString(ps: seq<Param>): string {
    Join(MapSeq(ps, (p: Param) => p.name + "=" + p.value), "&")
  }

  // ---- The grid ----

  /** The query of one fetch. */
  datatype VideosQuery = VideosQuery(skip: int, limit: int)

  /** The body of a fetch: this page's videos and the total, which may be missing. */
  datatype VideosData = VideosData(videos: seq<PromoVideo>, total: Option<int>)

  const FetchFallback: string := "Failed to fetch promotional videos"

  /** The query for a page of a given size. */
  function QueryFor(page: int, size: int): VideosQuery {
    VideosQuery(Skip(page, size), size)
  }

  /** The page size a change asks for: `newPageSize || currentPageSize`. */
  function EffectiveSize(newPageSize: Option<int>, current: int): (size: int)
    ensures newPageSize.Some? && newPageSize.value != 0 ==> size == newPageSize.value
    ensures !(newPageSize.Some? && newPageSize.value != 0) ==> size == current
  {
    if newPageSize.Some? && newPageSize.value != 0 then newPageSize.value else current
  }

  /** The query string after a page change: `page` and `pageSize` set, the rest kept. */
  function PageParams(ps: seq<Param>, page: int, size: int): seq<Param> {
    SetParam(SetParam(ps, "page", IntToString(page)), "pageSize", IntToString(size))
  }

  /** The rewritten query string names the page and the size, and keeps every other parameter. */
  lemma PageParamsSpec(ps: seq<Param>, page: int, size: int, other: string)
    requires other != "page" && other != "pageSize"
    ensures GetParam(PageParams(ps, page, size), "page") == Some(IntToString(page))
    ensures GetParam(PageParams(ps, page, size), "pageSize") == Some(IntToString(size))
    ensures GetParam(PageParams(ps, page, size), other) == GetParam(ps, other)
  {
    var p1 := SetParam(ps, "page", IntToString(page));
    SetParamSpec(ps, "page", IntToString(page));
    SetParamOthers(p1, "pageSize", IntToString(size), "page");
    SetParamSpec(p1, "pageSize", IntToString(size));
    SetParamOthers(ps, "page", IntToString(page), other);
    SetParamOthers(p1, "pageSize", IntToString(size), other);
  }

  /** The page number read back from the address is the page asked for. */
  lemma PageParamsReadBack(ps: seq<Param>, page: int, size: int)
    ensures var r := PageParams(ps, page, size);
      && GetParam(r, "page").Some? && ParseInt10(GetParam(r, "page").value) == Some(page)
      && GetParam(r, "pageSize").Some? && ParseInt10(GetParam(r, "pageSize").value) == Some(size)
  {
    PageParamsSpec(ps, page, size, "");
    ParseIntOfToString(page);
    ParseIntOfToString(size);
  }

  /** The grid's state. */
  class Grid {
    var videos: seq<PromoVideo>
    var currentPage: int
    var currentPageSize: int
    var total: int
    var isModalVisible: bool
    var isPlayerModalVisible: bool
    var selectedVideo: Option<PromoVideo>
    var editingVideo: Option<PromoVideo>
    var fetching: bool
    var searchParams: seq<Param>

    /** The grid as the server rendered it. */
    constructor(initialVideos: seq<PromoVideo>, totalVideos: int, page: int, pageSize: int, params: seq<Param>)
      ensures videos == initialVideos && total == totalVideos && currentPage == page && currentPageSize == pageSize
      ensures !isModalVisible && !isPlayerModalVisible && selectedVideo == None && editingVideo == None && !fetching
      ensures searchParams == params
    {
      videos := initialVideos;
      currentPage := page;
      currentPageSize := pageSize;
      total := totalVideos;
      isModalVisible := false;
      isPlayerModalVisible := false;
      selectedVideo := None;
      editingVideo := None;
      fetching := false;
      searchParams := params;
    }

    /** `fetchVideos(skip, limit)`: the page's videos replace the list and the total falls back
        to 0 when it is missing; a failure keeps both. */
    method FetchVideos(skip: int, limit: int, response: Response<VideosData>) returns (query: VideosQuery, toast: Option<Toast>)
      modifies this
      ensures query == VideosQuery(skip, limit)
      ensures response.Ok? ==> videos == response.data.videos && total == response.data.total.GetOr(0) && toast == None
      ensures response.Err? ==> videos == old(videos) && total == old(total)
      ensures response.Err? ==> toast == Some(ErrorToast(DataErrorOr(response.error, FetchFallback)))
      ensures !fetching && currentPage == old(currentPage) && currentPageSize == old(currentPageSize)
      ensures isModalVisible == old(isModalVisible) && isPlayerModalVisible == old(isPlayerModalVisible)
      ensures selectedVideo == old(selectedVideo) && editingVideo == old(editingVideo) && searchParams == old(searchParams)
    {
      fetching := true;
      query := VideosQuery(skip, limit);
      match response {
        case Ok(data) =>
          videos := data.videos;
          total := data.total.GetOr(0);
          toast := None;
        case Err(e) =>
          toast := Some(ErrorToast(DataErrorOr(e, FetchFallback)));
      }
      fetching := false;
    }

    /** `handlePageChange(newPage, newPageSize)`: the page is the one chosen (never reset), the
        size is the given one when it is non-zero and the current one otherwise; the address
        gets both as query parameters and the new page is fetched. */
    method PageChange(newPage: int, newPageSize: Option<int>, response: Response<VideosData>)
      returns (url: string, query: VideosQuery, toast: Option<Toast>)
      modifies this
      ensures currentPage == newPage && currentPageSize == EffectiveSize(newPageSize, old(currentPageSize))
      ensures url == "/cms?" + ParamsToString(PageParams(old(searchParams), newPage, currentPageSize))
      ensures query == QueryFor(newPage, currentPageSize)
      ensures response.Ok? ==> videos == response.data.videos && total == response.data.total.GetOr(0)
      ensures response.Err? ==> videos == old(videos) && total == old(total)
      ensures !fetching && searchParams == old(searchParams)
      ensures isModalVisible == old(isModalVisible) && editingVideo == old(editingVideo)
      ensures isPlayerModalVisible == old(isPlayerModalVisible) && selectedVideo == old(selectedVideo)
    {
      var updatedPageSize := if newPageSize.Some? && newPageSize.value != 0 then newPageSize.value else currentPageSize;
      currentPage := newPage;
      currentPageSize := updatedPageSize;
      var newParams := searchParams;
      newParams := SetParam(newParams, "page", IntToString(newPage));
      newParams := SetParam(newParams, "pageSize", IntToString(updatedPageSize));
      url := "/cms?" + ParamsToString(newParams);
      query, toast := FetchVideos((newPage - 1) * updatedPageSize, updatedPageSize, response);
    }

    /** `handleRefresh`: fetches the current page again. */
    method Refresh(response: Response<VideosData>) returns (query: VideosQuery, toast: Option<Toast>)
      modifies this
      ensures query == QueryFor(old(currentPage), old(currentPageSize))
      ensures response.Ok? ==> videos == response.data.videos && total == response.data.total.GetOr(0)
      ensures response.Err? ==> videos == old(videos) && total == old(total)
      ensures !fetching && currentPage == old(currentPage) && currentPageSize == old(currentPageSize)
      ensures searchParams == old(searchParams) && isModalVisible == old(isModalVisible) && editingVideo == old(editingVideo)
      ensures isPlayerModalVisible == old(isPlayerModalVisible) && selectedVideo == old(selectedVideo)
    {
      query, toast := FetchVideos((currentPage - 1) * currentPageSize, currentPageSize, response);
    }

    /** The Create button: opens the form modal and leaves `editingVideo` as it is, which is
        `None` after every close of the modal. */
    method OpenCreate()
      modifies this
      ensures isModalVisible && editingVideo == old(editingVideo)
      ensures videos == old(videos) && total == old(total) && currentPage == old(currentPage)
      ensures currentPageSize == old(currentPageSize) && searchParams == old(searchParams)
      ensures isPlayerModalVisible == old(isPlayerModalVisible) && selectedVideo == old(selectedVideo) && fetching == old(fetching)
    {
      isModalVisible := true;
    }

    /** The player modal's `onCancel`: hides the player and keeps the selected video. */
    method ClosePlayer()
      modifies this
      ensures !isPlayerModalVisible && selectedVideo == old(selectedVideo)
      ensures videos == old(videos) && total == old(total) && currentPage == old(currentPage)
      ensures currentPageSize == old(currentPageSize) && searchParams == old(searchParams)
      ensures isModalVisible == old(isModalVisible) && editingVideo == old(editingVideo) && fetching == old(fetching)
    {
      isPlayerModalVisible := false;
    }

    /** The modal's `onCancel`: closes it and forgets the video being edited. */
    method CloseModal()
      modifies this
      ensures !isModalVisible && editingVideo == None
      ensures videos == old(videos) && total == old(total) && currentPage == old(currentPage)
      ensures currentPageSize == old(currentPageSize) && searchParams == old(searchParams)
      ensures isPlayerModalVisible == old(isPlayerModalVisible) && selectedVideo == old(selectedVideo) && fetching == old(fetching)
    {
      isModalVisible := false;
      editingVideo := None;
    }
  }
}
