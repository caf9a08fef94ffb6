/** The statistic cards of the dashboard: the counters of the state, the first `totalVideos`
    row, and four counts of videos whose status is exactly a given word. */
module DashboardStats {
  import opened Wrappers
  import opened Seqs
  import opened DashboardState

  /** Unlike the breakdown, the counts compare the status as written. */
  predicate StatusIsProcessing(v: VideoStatus) { v.status == "processing" }
  predicate StatusIsSuccess(v: VideoStatus) { v.status == "success" }

  /** `Object.values(r).filter(p).length`. */
  function CountValues(r: Record, p: VideoStatus -> bool): (n: nat)
    ensures n <= |r|
  {
    |Filter(Values(r), p)|
  }

  /** `state.totalVideos?.[0]?.total`. */
  function TotalVideosShown(s: State): Option<int> {
    if s.totalVideos.Some? && |s.totalVideos.value| > 0 then s.totalVideos.value[0].total else None
  }

  datatype Stats = Stats(
    activeUsers: int,
    newSignups: int,
    totalUsers: int,
    totalVideos: Option<int>,
    transcoding: nat,
    processed: nat,
    transcriptions: nat,
    thumbnails: nat)

  /** The eight cards. */
  function StatsOf(s: State): (st: Stats)
    ensures st.transcoding <= |s.transcodingVideos| && st.processed <= |s.processedVideos|
    ensures st.transcriptions <= |s.transcriptions| && st.thumbnails <= |s.thumbnails|
    ensures st.activeUsers == s.activeUsers && st.newSignups == s.newSignups && st.totalUsers == s.totalUsers
  {
    Stats(
      s.activeUsers, s.newSignups, s.totalUsers, TotalVideosShown(s),
      CountValues(s.transcodingVideos, StatusIsProcessing),
      CountValues(s.processedVideos, StatusIsSuccess),
      CountValues(s.transcriptions, StatusIsProcessing),
      CountValues(s.thumbnails, StatusIsProcessing))
  }

  /** A count does not depend on the enumeration order: it is the number of entries, in
      creation order, whose value satisfies the predicate. */
  lemma CountInCreationOrder(r: Record, p: VideoStatus -> bool)
    ensures CountValues(r, p) == |Filter(r, Compose(p, EntryValue))|
  {
    FilterMapSeq(Enumerate(r), EntryValue, p);
    FilterCountPermutation(Enumerate(r), r, Compose(p, EntryValue));
  }

  /** A count against one spelling is at most the count against a wider predicate. */
  lemma {:induction false} FilterMonotone<T>(s: seq<T>, p: T -> bool, q: T -> bool)
    requires forall i :: 0 <= i < |s| ==> p(s[i]) ==> q(s[i])
    ensures |Filter(s, p)| <= |Filter(s, q)|
    decreases |s|
  {
    if s != [] {
      FilterMonotone(s[1..], p, q);
    }
  }

  /** The total card shows the first row of the `totalVideos` an initial-data payload brought. */
  lemma TotalVideosFromPayload(s: State, p: Patch, n: int, rest: seq<TotalRow>)
    requires p.totalVideos == Some([TotalRow(Some(n))] + rest)
    ensures TotalVideosShown(Merge(s, p)) == Some(n)
    ensures TotalVideosShown(Initial) == None
  {
  }
}
