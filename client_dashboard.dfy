/** The dashboard page: the status breakdown of each video mapping (`separateByStatus`) and
    the guard that shows a skeleton until both sockets are connected. */
module ClientDashboard {
  import opened Seqs
  import Strings
  import opened DashboardState
  import DashboardStats

  /** Matching is on the upper-cased status, so any spelling of the three words counts. */
  predicate IsProcessing(v: VideoStatus) { Strings.ToUpper(v.status) == "PROCESSING" }
  predicate IsSuccess(v: VideoStatus) { Strings.ToUpper(v.status) == "SUCCESS" }
  predicate IsFailed(v: VideoStatus) { Strings.ToUpper(v.status) == "FAILED" }

  datatype StatusBreakdown = StatusBreakdown(
    processing: seq<VideoStatus>,
    success: seq<VideoStatus>,
    failed: seq<VideoStatus>)

  /** The three buckets: the mapping's values with each status, in enumeration order. */
  function Breakdown(vs: seq<VideoStatus>): StatusBreakdown {
    StatusBreakdown(Filter(vs, IsProcessing), Filter(vs, IsSuccess), Filter(vs, IsFailed))
  }

  /** The bucket for one video: the one its upper-cased status names, or none. */
  method Push(b: StatusBreakdown, video: VideoStatus) returns (r: StatusBreakdown)
    ensures r.processing == b.processing + (if IsProcessing(video) then [video] else [])
    ensures r.success == b.success + (if IsSuccess(video) then [video] else [])
    ensures r.failed == b.failed + (if IsFailed(video) then [video] else [])
  {
    BucketsExclusive(video);
    var upper := Strings.ToUpper(video.status);
    r := b;
    if upper == "PROCESSING" {
      r := r.(processing := r.processing + [video]);
    } else if upper == "SUCCESS" {
      r := r.(success := r.success + [video]);
    } else if upper == "FAILED" {
      r := r.(failed := r.failed + [video]);
    }
  }

  /** One more video lands in the buckets its status names. */
  lemma BreakdownSnoc(vs: seq<VideoStatus>, video: VideoStatus)
    ensures var b := Breakdown(vs); var r := Breakdown(vs + [video]);
      && r.processing == b.processing + (if IsProcessing(video) then [video] else [])
      && r.success == b.success + (if IsSuccess(video) then [video] else [])
      && r.failed == b.failed + (if IsFailed(video) then [video] else [])
  {
    FilterSnoc(vs, video, IsProcessing);
    FilterSnoc(vs, video, IsSuccess);
    FilterSnoc(vs, video, IsFailed);
  }

  /** `separateByStatus(videos)`: `Object.values(videos)`, split by status. */
  method SeparateByStatus(videos: Record) returns (b: StatusBreakdown)
    ensures b == Breakdown(Values(videos))
  {
    b := SeparateValues(Values(videos));
  }

  /** The `forEach` of `separateByStatus`: one pass, pushing each video to the bucket its
      upper-cased status names and skipping any other status. */
  method SeparateValues(vs: seq<VideoStatus>) returns (b: StatusBreakdown)
    ensures b == Breakdown(vs)
  {
    b := StatusBreakdown([], [], []);
    var i := 0;
    while i < |vs|
      invariant 0 <= i <= |vs|
      invariant b == Breakdown(vs[..i])
    {
      var video := vs[i];
      b := Push(b, video);
      assert vs[..i + 1] == vs[..i] + [video];
      BreakdownSnoc(vs[..i], video);
      i := i + 1;
    }
    assert vs[..|vs|] == vs;
  }

  /** No status names two buckets. */
  lemma BucketsExclusive(v: VideoStatus)
    ensures !(IsProcessing(v) && IsSuccess(v)) && !(IsProcessing(v) && IsFailed(v)) && !(IsSuccess(v) && IsFailed(v))
  {
    var u := Strings.ToUpper(v.status);
    assert |"PROCESSING"| == 10 && |"SUCCESS"| == 7 && |"FAILED"| == 6;
    assert IsProcessing(v) ==> |u| == 10;
    assert IsSuccess(v) ==> |u| == 7;
  }

  /** A video of the mapping is in a bucket exactly when its status names that bucket, and a
      video with one of the three statuses is in exactly one bucket. */
  lemma BucketMembership(r: Record, v: VideoStatus)
    requires v in Values(r)
    ensures v in Breakdown(Values(r)).processing <==> IsProcessing(v)
    ensures v in Breakdown(Values(r)).success <==> IsSuccess(v)
    ensures v in Breakdown(Values(r)).failed <==> IsFailed(v)
    ensures !(IsProcessing(v) && IsSuccess(v)) && !(IsProcessing(v) && IsFailed(v)) && !(IsSuccess(v) && IsFailed(v))
  {
    var vs := Values(r);
    var i :| 0 <= i < |vs| && vs[i] == v;
    var b := Breakdown(vs);
    if v in b.processing {
      var j :| 0 <= j < |b.processing| && b.processing[j] == v;
    }
    if v in b.success {
      var j :| 0 <= j < |b.success| && b.success[j] == v;
    }
    if v in b.failed {
      var j :| 0 <= j < |b.failed| && b.failed[j] == v;
    }
  }

  /** The buckets hold at most as many videos as the mapping has entries, and exactly as many
      when every status is one of the three. */
  lemma BreakdownSizes(r: Record)
    ensures var b := Breakdown(Values(r)); |b.processing| + |b.success| + |b.failed| <= |r|
    ensures var vs := Values(r); var b := Breakdown(vs);
      (forall i :: 0 <= i < |vs| ==> IsProcessing(vs[i]) || IsSuccess(vs[i]) || IsFailed(vs[i])) <==>
      |b.processing| + |b.success| + |b.failed| == |r|
  {
    ExclusiveFilterSizes(Values(r), IsProcessing, IsSuccess, IsFailed);
  }

  /** Two statuses that differ only in letter case land in the same bucket. */
  lemma CaseInsensitive(v: VideoStatus, status: string)
    requires Strings.ToLower(status) == Strings.ToLower(v.status)
    ensures IsProcessing(v.(status := status)) == IsProcessing(v)
    ensures IsSuccess(v.(status := status)) == IsSuccess(v)
    ensures IsFailed(v.(status := status)) == IsFailed(v)
  {
    Strings.UpperOfLower(status);
    Strings.UpperOfLower(v.status);
  }

  /** What the page shows. */
  datatype View =
    | Skeleton
    | Dashboard(
        stats: DashboardStats.Stats,
        transcoding: StatusBreakdown,
        processed: StatusBreakdown,
        transcriptions: StatusBreakdown,
        titleSummaries: StatusBreakdown,
        thumbnails: StatusBreakdown)

  /** The hook's `isConnected`: both the user socket and the video socket are connected. */
  predicate HookConnected(userSocketConnected: bool, videoSocketConnected: bool) {
    userSocketConnected && videoSocketConnected
  }

  /** The page: the skeleton while the hook reports not connected, otherwise the stats and the
      five breakdowns of the current state. */
  function Render(s: State, userSocketConnected: bool, videoSocketConnected: bool): (v: View)
    ensures v.Skeleton? <==> !userSocketConnected || !videoSocketConnected
    ensures v.Dashboard? ==> v.stats == DashboardStats.StatsOf(s)
  {
    if !HookConnected(userSocketConnected, videoSocketConnected) then Skeleton
    else Dashboard(
      DashboardStats.StatsOf(s),
      Breakdown(Values(s.transcodingVideos)),
      Breakdown(Values(s.processedVideos)),
      Breakdown(Values(s.transcriptions)),
      Breakdown(Values(s.titleSummaries)),
      Breakdown(Values(s.thumbnails)))
  }

  /** Every video the stats panel counts lies in the matching bucket of the breakdown, so a
      count never exceeds that bucket's size. */
  lemma CountsWithinBuckets(r: Record)
    ensures DashboardStats.CountValues(r, DashboardStats.StatusIsProcessing) <= |Breakdown(Values(r)).processing|
    ensures DashboardStats.CountValues(r, DashboardStats.StatusIsSuccess) <= |Breakdown(Values(r)).success|
  {
    var vs := Values(r);
    UpperOfStatusWords();
    assert forall i :: 0 <= i < |vs| ==> DashboardStats.StatusIsProcessing(vs[i]) ==> IsProcessing(vs[i]);
    assert forall i :: 0 <= i < |vs| ==> DashboardStats.StatusIsSuccess(vs[i]) ==> IsSuccess(vs[i]);
    DashboardStats.FilterMonotone(vs, DashboardStats.StatusIsProcessing, IsProcessing);
    DashboardStats.FilterMonotone(vs, DashboardStats.StatusIsSuccess, IsSuccess);
  }

  /** The lower-case statuses the stats panel counts upper-case to the bucket names. */
  lemma UpperOfStatusWords()
    ensures Strings.ToUpper("processing") == "PROCESSING"
    ensures Strings.ToUpper("success") == "SUCCESS"
  {
    var p := Strings.ToUpper("processing");
    forall i | 0 <= i < 10 ensures p[i] == "PROCESSING"[i] {
      assert "processing"[i] == "processing"[i];
    }
    var s := Strings.ToUpper("success");
    forall i | 0 <= i < 7 ensures s[i] == "SUCCESS"[i] {
      assert "success"[i] == "success"[i];
    }
  }

  /** The two readings differ on case: a transcoding video reported as "Processing" is in the
      processing bucket but not in the transcoding count. */
  lemma CountIsCaseSensitive(s: State, v: VideoStatus)
    requires v.status == "Processing" && s.transcodingVideos == [Entry(v.videoId, v)]
    ensures DashboardStats.StatsOf(s).transcoding == 0
    ensures Breakdown(Values(s.transcodingVideos)).processing == [v]
  {
    ValuesSingleton(Entry(v.videoId, v));
    assert !DashboardStats.StatusIsProcessing(v) by {
      assert v.status[0] == 'P' && "processing"[0] == 'p';
    }
    assert IsProcessing(v) by {
      UpperOfCapitalised();
    }
    assert Filter([v], DashboardStats.StatusIsProcessing) == [] + Filter([v][1..], DashboardStats.StatusIsProcessing);
    assert Filter([v], IsProcessing) == [v] + Filter([v][1..], IsProcessing);
  }

  lemma UpperOfCapitalised()
    ensures Strings.ToUpper("Processing") == "PROCESSING"
  {
    var p := Strings.ToUpper("Processing");
    forall i | 0 <= i < 10 ensures p[i] == "PROCESSING"[i] {
      assert "Processing"[i] == "Processing"[i];
    }
  }
}
