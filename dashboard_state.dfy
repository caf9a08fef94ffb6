/** The dashboard state aggregator of the admin console (the `useDashboardSocket` hook): one
    state record, folded from the events of two socket channels. Every event handler is a pure
    `prev => next` transition, so each is a function here. */
module DashboardState {
  import opened Wrappers
  import opened Seqs
  import Strings

  /** A status event for one video. The source types `status` as processing / success / failed
      but nothing checks it, so it is kept as a string; the other fields are opaque. */
  datatype VideoStatus = VideoStatus(videoId: string, status: string, extra: map<string, string>)

  datatype SubscriptionUpdate = SubscriptionUpdate(userId: string, status: string)

  /** One own property of a `Record<string, VideoStatus>` object. */
  datatype Entry = Entry(key: string, value: VideoStatus)

  /** A `Record<string, VideoStatus>`: its own properties in creation order. */
  type Record = seq<Entry>

  /** An element of `totalVideos`, of which the stats panel reads `[0].total`. */
  datatype TotalRow = TotalRow(total: Option<int>)

  /** The dashboard state. `totalVideos` is not in the declared state type, but it arrives with
      the initial-data payload (the merge copies every field) and the stats panel reads it. */
  datatype State = State(
    activeUsers: int,
    newSignups: int,
    totalUsers: int,
    transcodingVideos: Record,
    processedVideos: Record,
    transcriptions: Record,
    titleSummaries: Record,
    thumbnails: Record,
    subscriptions: seq<SubscriptionUpdate>,
    activeSubscriptionsCount: int,
    totalVideos: Option<seq<TotalRow>>)

  /** The five video mappings, one per video event. */
  datatype Category = Transcoding | Processed | Transcriptions | TitleSummaries | Thumbnails

  // ---------------------------------------------------------------------------------------
  // Records as insertion-ordered association lists

  /** `record[k]`: the value of the first property named `k`, if there is one. */
  function Lookup(r: Record, k: string): Option<VideoStatus>
    decreases |r|
  {
    if r == [] then None else if r[0].key == k then Some(r[0].value) else Lookup(r[1..], k)
  }

  /** Every property name occurs once, as in any JavaScript object. */
  predicate UniqueKeys(r: Record)
    decreases |r|
  {
    r == [] || (Lookup(r[1..], r[0].key) == None && UniqueKeys(r[1..]))
  }

  /** The record without the property `k`, the others in their order. */
  function Without(r: Record, k: string): Record
    decreases |r|
  {
    if r == [] then [] else (if r[0].key == k then [] else [r[0]]) + Without(r[1..], k)
  }

  lemma {:induction false} LookupWithout(r: Record, k: string, k': string)
    ensures Lookup(Without(r, k), k') == if k' == k then None else Lookup(r, k')
    decreases |r|
  {
    if r != [] {
      LookupWithout(r[1..], k, k');
      if r[0].key != k {
        assert ([r[0]] + Without(r[1..], k))[1..] == Without(r[1..], k);
      } else {
        assert Without(r, k) == Without(r[1..], k);
      }
    }
  }

  lemma {:induction false} WithoutAbsent(r: Record, k: string)
    requires Lookup(r, k) == None
    ensures Without(r, k) == r
    decreases |r|
  {
    if r != [] {
      WithoutAbsent(r[1..], k);
      assert r == [r[0]] + r[1..];
    }
  }

  lemma {:induction false} WithoutUnique(r: Record, k: string)
    requires UniqueKeys(r)
    ensures UniqueKeys(Without(r, k))
    ensures |Without(r, k)| == if Lookup(r, k).Some? then |r| - 1 else |r|
    decreases |r|
  {
    if r != [] {
      WithoutUnique(r[1..], k);
      if r[0].key == k {
        WithoutAbsent(r[1..], k);
        assert Without(r, k) == r[1..];
      } else {
        LookupWithout(r[1..], k, r[0].key);
        assert ([r[0]] + Without(r[1..], k))[1..] == Without(r[1..], k);
      }
    }
  }

  /** A lookup in a record extended at the end finds an earlier entry first. */
  lemma {:induction false} LookupAppend(r: Record, e: Entry, k: string)
    ensures Lookup(r + [e], k) == if Lookup(r, k).Some? then Lookup(r, k)
                                  else if e.key == k then Some(e.value) else None
    decreases |r|
  {
    if r != [] {
      assert (r + [e])[1..] == r[1..] + [e];
      LookupAppend(r[1..], e, k);
    }
  }

  lemma {:induction false} UniqueAppend(r: Record, e: Entry)
    requires UniqueKeys(r) && Lookup(r, e.key) == None
    ensures UniqueKeys(r + [e])
    decreases |r|
  {
    if r != [] {
      assert (r + [e])[1..] == r[1..] + [e];
      UniqueAppend(r[1..], e);
      LookupAppend(r[1..], e, r[0].key);
    }
  }

  /** `removeVideoFromCategory(category, videoId)`: when the key is present, the record without
      it (`const { [videoId]: _, ...rest } = category`); otherwise the same record. */
  function RemoveVideoFromCategory(category: Record, videoId: string): (r: Record)
    ensures Lookup(r, videoId) == None
    ensures forall k :: k != videoId ==> Lookup(r, k) == Lookup(category, k)
    ensures r == Without(category, videoId)
    ensures UniqueKeys(category) ==> UniqueKeys(r)
    ensures UniqueKeys(category) ==>
      |r| == if Lookup(category, videoId).Some? then |category| - 1 else |category|
  {
    RemoveSpec(category, videoId);
    if Lookup(category, videoId).Some? then Without(category, videoId) else category
  }

  lemma RemoveSpec(category: Record, videoId: string)
    ensures Lookup(Without(category, videoId), videoId) == None
    ensures forall k :: k != videoId ==> Lookup(Without(category, videoId), k) == Lookup(category, k)
    ensures Lookup(category, videoId) == None ==> Without(category, videoId) == category
    ensures UniqueKeys(category) ==> UniqueKeys(Without(category, videoId))
    ensures UniqueKeys(category) ==>
      |Without(category, videoId)| == if Lookup(category, videoId).Some? then |category| - 1 else |category|
  {
    LookupWithout(category, videoId, videoId);
    forall k | k != videoId ensures Lookup(Without(category, videoId), k) == Lookup(category, k) {
      LookupWithout(category, videoId, k);
    }
    if Lookup(category, videoId) == None {
      WithoutAbsent(category, videoId);
    }
    if UniqueKeys(category) {
      WithoutUnique(category, videoId);
    }
  }

  /** The record of a video event: `{ ...removeVideoFromCategory(prev, data.videoId), [data.videoId]: data }`. */
  function Upsert(category: Record, data: VideoStatus): (r: Record)
    ensures Lookup(r, data.videoId) == Some(data)
    ensures forall k :: k != data.videoId ==> Lookup(r, k) == Lookup(category, k)
    ensures r[|r| - 1] == Entry(data.videoId, data)
    ensures UniqueKeys(category) ==> UniqueKeys(r)
    ensures UniqueKeys(category) ==>
      |r| == if Lookup(category, data.videoId).Some? then |category| else |category| + 1
  {
    var rest := RemoveVideoFromCategory(category, data.videoId);
    UpsertSpec(rest, Entry(data.videoId, data));
    rest + [Entry(data.videoId, data)]
  }

  lemma UpsertSpec(rest: Record, e: Entry)
    requires Lookup(rest, e.key) == None
    ensures Lookup(rest + [e], e.key) == Some(e.value)
    ensures forall k :: k != e.key ==> Lookup(rest + [e], k) == Lookup(rest, k)
    ensures UniqueKeys(rest) ==> UniqueKeys(rest + [e])
  {
    LookupAppend(rest, e, e.key);
    forall k | k != e.key ensures Lookup(rest + [e], k) == Lookup(rest, k) {
      LookupAppend(rest, e, k);
    }
    if UniqueKeys(rest) {
      UniqueAppend(rest, e);
    }
  }

  // ---------------------------------------------------------------------------------------
  // Enumeration order (`Object.values`)

  /** An ECMAScript array index: the canonical decimal form of an integer in 0 .. 2^32 - 2. */
  predicate IsArrayIndex(k: string) {
    && |k| >= 1
    && (forall i :: 0 <= i < |k| ==> Strings.IsDigit(k[i]))
    && (k[0] == '0' ==> |k| == 1)
    && Strings.DigitsValue(k) < 0xFFFF_FFFF
  }

  predicate IndexKeyed(e: Entry) { IsArrayIndex(e.key) }

  function KeyNumber(e: Entry): nat {
    if IndexKeyed(e) then Strings.DigitsValue(e.key) else 0
  }

  /** Each entry's number is at most the next one's. */
  predicate SortedByKeyNumber(s: seq<Entry>) {
    forall i :: 0 < i < |s| ==> KeyNumber(s[i - 1]) <= KeyNumber(s[i])
  }

  function InsertByKeyNumber(e: Entry, s: seq<Entry>): (r: seq<Entry>)
    requires SortedByKeyNumber(s)
    ensures multiset(r) == multiset(s) + multiset{e} && |r| == |s| + 1
    ensures r[0] == if s == [] || KeyNumber(e) <= KeyNumber(s[0]) then e else s[0]
    ensures SortedByKeyNumber(r)
    decreases |s|
  {
    if s == [] then [e]
    else if KeyNumber(e) <= KeyNumber(s[0]) then [e] + s
    else
      assert s == [s[0]] + s[1..];
      [s[0]] + InsertByKeyNumber(e, s[1..])
  }

  /** The array-index entries in ascending numeric order. */
  function SortByKeyNumber(s: seq<Entry>): (r: seq<Entry>)
    ensures multiset(r) == multiset(s) && |r| == |s|
    ensures SortedByKeyNumber(r)
    decreases |s|
  {
    if s == [] then []
    else
      assert s == [s[0]] + s[1..];
      InsertByKeyNumber(s[0], SortByKeyNumber(s[1..]))
  }

  /** The order in which `Object.values` (and every spread) visits own properties: the
      array-index keys in ascending numeric order, then the other keys in creation order. */
  function Enumerate(r: Record): (es: seq<Entry>)
    ensures multiset(es) == multiset(r) && |es| == |r|
  {
    FilterSplitMultiset(r, IndexKeyed);
    assert |multiset(r)| == |r|;
    assert |multiset(Filter(r, IndexKeyed))| == |Filter(r, IndexKeyed)|;
    assert |multiset(Filter(r, Not(IndexKeyed)))| == |Filter(r, Not(IndexKeyed))|;
    SortByKeyNumber(Filter(r, IndexKeyed)) + Filter(r, Not(IndexKeyed))
  }

  function EntryValue(e: Entry): VideoStatus { e.value }

  /** `Object.values(record)`. */
  function Values(r: Record): (vs: seq<VideoStatus>)
    ensures |vs| == |r|
  {
    MapSeq(Enumerate(r), EntryValue)
  }

  lemma ValuesSingleton(e: Entry)
    ensures Values([e]) == [e.value]
  {
    assert Filter([e], IndexKeyed) == (if IndexKeyed(e) then [e] else []) + Filter([e][1..], IndexKeyed);
    assert Filter([e], Not(IndexKeyed)) == (if Not(IndexKeyed)(e) then [e] else []) + Filter([e][1..], Not(IndexKeyed));
    assert SortByKeyNumber([]) == [];
    assert SortByKeyNumber([e]) == [e] by {
      assert [e][1..] == [];
    }
    assert Enumerate([e]) == [e];
  }

  /** The entry of a video event goes last in enumeration order, unless its id is an array index. */
  lemma UpsertEnumeratesLast(category: Record, data: VideoStatus)
    requires !IsArrayIndex(data.videoId)
    ensures var vs := Values(Upsert(category, data)); vs[|vs| - 1] == data
  {
    var rest := RemoveVideoFromCategory(category, data.videoId);
    ValuesOfAppendNonIndex(rest, Entry(data.videoId, data));
  }

  /** The value of an entry whose key is not an array index comes last. */
  lemma ValuesOfAppendNonIndex(r: Record, e: Entry)
    requires !IndexKeyed(e)
    ensures Values(r + [e])[|r|] == e.value
  {
    EnumerateAppendNonIndex(r, e);
    var es := Enumerate(r + [e]);
    assert es[|r|] == e;
    assert Values(r + [e])[|r|] == EntryValue(es[|r|]);
  }

  /** An entry whose key is not an array index is enumerated after every other. */
  lemma EnumerateAppendNonIndex(r: Record, e: Entry)
    requires !IndexKeyed(e)
    ensures Enumerate(r + [e]) == Enumerate(r) + [e]
  {
    var a, b := Filter(r, IndexKeyed), Filter(r, Not(IndexKeyed));
    FiltersOfAppendNonIndex(r, e);
    EnumerateOf(r + [e], a, b + [e]);
    EnumerateOf(r, a, b);
    AppendAfterConcat(SortByKeyNumber(a), b, e);
  }

  lemma AppendAfterConcat<T>(x: seq<T>, b: seq<T>, e: T)
    ensures x + (b + [e]) == (x + b) + [e]
  {
  }

  lemma FiltersOfAppendNonIndex(r: Record, e: Entry)
    requires !IndexKeyed(e)
    ensures Filter(r + [e], IndexKeyed) == Filter(r, IndexKeyed)
    ensures Filter(r + [e], Not(IndexKeyed)) == Filter(r, Not(IndexKeyed)) + [e]
  {
    FilterSnoc(r, e, IndexKeyed);
    FilterSnoc(r, e, Not(IndexKeyed));
  }

  lemma EnumerateOf(r: Record, a: seq<Entry>, b: seq<Entry>)
    requires a == Filter(r, IndexKeyed) && b == Filter(r, Not(IndexKeyed))
    ensures Enumerate(r) == SortByKeyNumber(a) + b
  {
  }

  /** An id that is an array index is not moved to the end: `{ "b": x }` followed by an event
      for video "1" enumerates "1" first. */
  lemma ArrayIndexIdEnumeratesFirst(x: VideoStatus, data: VideoStatus)
    requires x.videoId == "b" && data.videoId == "1"
    ensures Values(Upsert([Entry("b", x)], data)) == [data, x]
  {
    KeysOfScenario();
    IndexAfterOneNamed(Entry("b", x), data);
  }

  lemma IndexAfterOneNamed(e: Entry, data: VideoStatus)
    requires !IndexKeyed(e) && IsArrayIndex(data.videoId)
    ensures Values(Upsert([e], data)) == [data, e.value]
  {
    IndexIdEnumeratesBeforeNamedIds([e], data);
    ValuesSingleton(e);
    PrependToSingleton(data, e.value, Values([e]));
  }

  lemma PrependToSingleton<T>(a: T, b: T, s: seq<T>)
    requires s == [b]
    ensures [a] + s == [a, b]
  {
  }

  lemma KeysOfScenario()
    ensures !IsArrayIndex("b") && IsArrayIndex("1")
  {
    assert !Strings.IsDigit("b"[0]);
  }

  /** Into a record whose keys are none of them array indices, an event for an id that is an
      array index is enumerated first, and the other values keep their order after it. */
  lemma IndexIdEnumeratesBeforeNamedIds(r: Record, data: VideoStatus)
    requires IsArrayIndex(data.videoId)
    requires forall i :: 0 <= i < |r| ==> !IndexKeyed(r[i])
    ensures Values(Upsert(r, data)) == [data] + Values(r)
  {
    var e := Entry(data.videoId, data);
    assert Upsert(r, data) == r + [e] by {
      WithoutNoIndexKeys(r, data.videoId);
    }
    EnumerateIndexIntoNamed(r, e);
    MapSeqCons(e, r, EntryValue);
  }

  lemma EnumerateIndexIntoNamed(r: Record, e: Entry)
    requires IndexKeyed(e)
    requires forall i :: 0 <= i < |r| ==> !IndexKeyed(r[i])
    ensures Enumerate(r + [e]) == [e] + r && Enumerate(r) == r
  {
    assert Filter(r + [e], IndexKeyed) == [e] by {
      FilterSnoc(r, e, IndexKeyed);
      FilterNone(r, IndexKeyed);
    }
    assert Filter(r + [e], Not(IndexKeyed)) == r && Filter(r, Not(IndexKeyed)) == r by {
      FilterSnoc(r, e, Not(IndexKeyed));
      FilterAll(r, Not(IndexKeyed));
    }
    assert Filter(r, IndexKeyed) == [] by {
      FilterNone(r, IndexKeyed);
    }
    EnumerateOf(r + [e], [e], r);
    EnumerateOf(r, [], r);
    SortSingleton(e);
  }

  lemma {:induction false} WithoutNoIndexKeys(r: Record, k: string)
    requires IsArrayIndex(k)
    requires forall i :: 0 <= i < |r| ==> !IndexKeyed(r[i])
    ensures Without(r, k) == r
    decreases |r|
  {
    if r != [] {
      assert !IndexKeyed(r[0]);
      WithoutNoIndexKeys(r[1..], k);
      assert r == [r[0]] + r[1..];
    }
  }

  lemma SortSingleton(e: Entry)
    ensures SortByKeyNumber([]) == [] && SortByKeyNumber([e]) == [e]
  {
    assert [e][1..] == [];
  }

  lemma MapSeqCons<A, B>(x: A, s: seq<A>, f: A -> B)
    ensures MapSeq([x] + s, f) == [f(x)] + MapSeq(s, f)
  {
  }

  // ---------------------------------------------------------------------------------------
  // The state and its transitions

  /** The hook's initial state. */
  const Initial: State := State(0, 0, 0, [], [], [], [], [], [], 0, None)

  /** The state invariant: at most one entry per id in each mapping. */
  predicate Valid(s: State) {
    && UniqueKeys(s.transcodingVideos)
    && UniqueKeys(s.processedVideos)
    && UniqueKeys(s.transcriptions)
    && UniqueKeys(s.titleSummaries)
    && UniqueKeys(s.thumbnails)
  }

  lemma InitialValid()
    ensures Valid(Initial)
    ensures Initial.activeUsers == 0 && Initial.newSignups == 0 && Initial.totalUsers == 0
    ensures Initial.activeSubscriptionsCount == 0 && Initial.subscriptions == []
    ensures forall c :: Videos(Initial, c) == []
  {
  }

  function Videos(s: State, c: Category): Record {
    match c
    case Transcoding => s.transcodingVideos
    case Processed => s.processedVideos
    case Transcriptions => s.transcriptions
    case TitleSummaries => s.titleSummaries
    case Thumbnails => s.thumbnails
  }

  function WithVideos(s: State, c: Category, r: Record): State {
    match c
    case Transcoding => s.(transcodingVideos := r)
    case Processed => s.(processedVideos := r)
    case Transcriptions => s.(transcriptions := r)
    case TitleSummaries => s.(titleSummaries := r)
    case Thumbnails => s.(thumbnails := r)
  }

  /** The fields an initial-data payload carries; `None` is a field the payload does not have. */
  datatype Patch = Patch(
    activeUsers: Option<int>,
    newSignups: Option<int>,
    totalUsers: Option<int>,
    transcodingVideos: Option<Record>,
    processedVideos: Option<Record>,
    transcriptions: Option<Record>,
    titleSummaries: Option<Record>,
    thumbnails: Option<Record>,
    subscriptions: Option<seq<SubscriptionUpdate>>,
    activeSubscriptionsCount: Option<int>,
    totalVideos: Option<seq<TotalRow>>)

  /** A payload with no fields (also what spreading `null` contributes). */
  const NoFields: Patch := Patch(None, None, None, None, None, None, None, None, None, None, None)

  /** `{ ...prev, ...p }`: every field the payload has replaces the state's. */
  function Merge(s: State, p: Patch): State {
    State(
      p.activeUsers.GetOr(s.activeUsers),
      p.newSignups.GetOr(s.newSignups),
      p.totalUsers.GetOr(s.totalUsers),
      p.transcodingVideos.GetOr(s.transcodingVideos),
      p.processedVideos.GetOr(s.processedVideos),
      p.transcriptions.GetOr(s.transcriptions),
      p.titleSummaries.GetOr(s.titleSummaries),
      p.thumbnails.GetOr(s.thumbnails),
      p.subscriptions.GetOr(s.subscriptions),
      p.activeSubscriptionsCount.GetOr(s.activeSubscriptionsCount),
      if p.totalVideos.Some? then p.totalVideos else s.totalVideos)
  }

  function Over<T>(a: Option<T>, b: Option<T>): Option<T> { if b.Some? then b else a }

  /** `{ ...p, ...q }`: the fields of `q` win. */
  function Overlay(p: Patch, q: Patch): Patch {
    Patch(
      Over(p.activeUsers, q.activeUsers), Over(p.newSignups, q.newSignups),
      Over(p.totalUsers, q.totalUsers), Over(p.transcodingVideos, q.transcodingVideos),
      Over(p.processedVideos, q.processedVideos), Over(p.transcriptions, q.transcriptions),
      Over(p.titleSummaries, q.titleSummaries), Over(p.thumbnails, q.thumbnails),
      Over(p.subscriptions, q.subscriptions),
      Over(p.activeSubscriptionsCount, q.activeSubscriptionsCount),
      Over(p.totalVideos, q.totalVideos))
  }

  /** A payload that could come from the server: JSON objects have one property per name. */
  predicate ValidPatch(p: Patch) {
    && (p.transcodingVideos.Some? ==> UniqueKeys(p.transcodingVideos.value))
    && (p.processedVideos.Some? ==> UniqueKeys(p.processedVideos.value))
    && (p.transcriptions.Some? ==> UniqueKeys(p.transcriptions.value))
    && (p.titleSummaries.Some? ==> UniqueKeys(p.titleSummaries.value))
    && (p.thumbnails.Some? ==> UniqueKeys(p.thumbnails.value))
  }

  /** Initial data on the video channel: `{ ...prev, ...data, ...statusCount }`. */
  function OnVideoInitialData(s: State, data: Patch, statusCount: Patch): (r: State)
    ensures r == Merge(s, Overlay(data, statusCount))
    ensures Merge(r, statusCount) == r
  {
    Merge(Merge(s, data), statusCount)
  }

  /** Initial data on the user channel: `{ ...prev, ...data }`. */
  function OnUserInitialData(s: State, data: Patch): (r: State)
    ensures Merge(r, data) == r
    ensures data == NoFields ==> r == s
  {
    Merge(s, data)
  }

  /** `active-users-count`: only `activeUsers` changes. */
  function OnActiveUsersCount(s: State, count: int): (r: State)
    ensures r.activeUsers == count && r.(activeUsers := s.activeUsers) == s
  {
    Merge(s, NoFields.(activeUsers := Some(count)))
  }

  /** `new-user-signup`: only `newSignups` changes. */
  function OnNewUserSignup(s: State, newSignups: int): (r: State)
    ensures r.newSignups == newSignups && r.(newSignups := s.newSignups) == s
  {
    Merge(s, NoFields.(newSignups := Some(newSignups)))
  }

  /** One of the five video events: the mapping of its category maps the id to the event, every
      other id keeps its entry, and nothing else in the state changes. */
  function OnVideoEvent(s: State, c: Category, data: VideoStatus): (r: State)
    ensures Lookup(Videos(r, c), data.videoId) == Some(data)
    ensures forall k :: k != data.videoId ==> Lookup(Videos(r, c), k) == Lookup(Videos(s, c), k)
    ensures forall c' :: c' != c ==> Videos(r, c') == Videos(s, c')
    ensures WithVideos(r, c, Videos(s, c)) == s
    ensures Valid(s) ==> Valid(r)
  {
    var u := Upsert(Videos(s, c), data);
    WithVideosSpec(s, c, u);
    WithVideos(s, c, u)
  }

  lemma WithVideosSpec(s: State, c: Category, u: Record)
    ensures Videos(WithVideos(s, c, u), c) == u
    ensures forall c' :: c' != c ==> Videos(WithVideos(s, c, u), c') == Videos(s, c')
    ensures WithVideos(WithVideos(s, c, u), c, Videos(s, c)) == s
    ensures Valid(s) && UniqueKeys(u) ==> Valid(WithVideos(s, c, u))
  {
  }

  /** The first updater of `subscription-update`: `[data, ...prev.subscriptions].slice(0, 5)`. */
  function PrependSubscription(s: State, data: SubscriptionUpdate): State {
    s.(subscriptions := Take([data] + s.subscriptions, 5))
  }

  /** The second updater, applied only when `data.status === "active"`. */
  function CountActiveSubscription(s: State, data: SubscriptionUpdate): State {
    if data.status == "active" then s.(activeSubscriptionsCount := s.activeSubscriptionsCount + 1)
    else s
  }

  /** `subscription-update`: the update is prepended, the list is cut to five, and the counter
      rises by one exactly for the status "active". */
  function OnSubscriptionUpdate(s: State, data: SubscriptionUpdate): (r: State)
    ensures |r.subscriptions| == Min(5, |s.subscriptions| + 1)
    ensures r.subscriptions[0] == data
    ensures r.subscriptions[1..] == s.subscriptions[..|r.subscriptions| - 1]
    ensures r.activeSubscriptionsCount ==
      s.activeSubscriptionsCount + (if data.status == "active" then 1 else 0)
    ensures r.(subscriptions := s.subscriptions, activeSubscriptionsCount := s.activeSubscriptionsCount) == s
  {
    var r := CountActiveSubscription(PrependSubscription(s, data), data);
    assert r.subscriptions == ([data] + s.subscriptions)[..Min(5, |s.subscriptions| + 1)];
    r
  }

  /** Everything that arrives on the two channels. */
  datatype Event =
    | VideoInitialData(data: Patch, statusCount: Patch)
    | UserInitialData(data: Patch)
    | ActiveUsersCount(count: int)
    | NewUserSignup(newSignups: int)
    | VideoUpdate(category: Category, status: VideoStatus)
    | SubscriptionUpdated(update: SubscriptionUpdate)
    | SocketError(message: string)

  /** The state after one event. Error events are only logged. */
  function Apply(s: State, e: Event): State {
    match e
    case VideoInitialData(data, statusCount) => OnVideoInitialData(s, data, statusCount)
    case UserInitialData(data) => OnUserInitialData(s, data)
    case ActiveUsersCount(count) => OnActiveUsersCount(s, count)
    case NewUserSignup(n) => OnNewUserSignup(s, n)
    case VideoUpdate(c, d) => OnVideoEvent(s, c, d)
    case SubscriptionUpdated(d) => OnSubscriptionUpdate(s, d)
    case SocketError(_) => s
  }

  /** The state after a sequence of events, in arrival order. */
  function Run(s: State, es: seq<Event>): State
    decreases |es|
  {
    if es == [] then s else Run(Apply(s, es[0]), es[1..])
  }

  predicate IsMerge(e: Event) { e.VideoInitialData? || e.UserInitialData? }

  predicate ValidEvent(e: Event) {
    match e
    case VideoInitialData(data, statusCount) => ValidPatch(data) && ValidPatch(statusCount)
    case UserInitialData(data) => ValidPatch(data)
    case _ => true
  }

  lemma MergeValid(s: State, p: Patch)
    requires Valid(s) && ValidPatch(p)
    ensures Valid(Merge(s, p))
  {
  }

  /** Every event keeps the invariant (provided an initial-data payload is itself well formed). */
  lemma ApplyValid(s: State, e: Event)
    requires Valid(s) && ValidEvent(e)
    ensures Valid(Apply(s, e))
  {
    match e
    case VideoInitialData(data, statusCount) =>
      MergeValid(s, data);
      MergeValid(Merge(s, data), statusCount);
    case UserInitialData(data) =>
      MergeValid(s, data);
    case _ =>
  }

  lemma {:induction false} RunValid(s: State, es: seq<Event>)
    requires Valid(s) && forall i :: 0 <= i < |es| ==> ValidEvent(es[i])
    ensures Valid(Run(s, es))
    decreases |es|
  {
    if es != [] {
      ApplyValid(s, es[0]);
      RunValid(Apply(s, es[0]), es[1..]);
    }
  }

  /** What one event other than initial data does to the video mappings and the subscriptions. */
  lemma ApplyNonMerge(s: State, e: Event, c: Category)
    requires !IsMerge(e)
    ensures Videos(Apply(s, e), c) ==
      if e.VideoUpdate? && e.category == c then Upsert(Videos(s, c), e.status) else Videos(s, c)
    ensures Apply(s, e).subscriptions ==
      if e.SubscriptionUpdated? then Take([e.update] + s.subscriptions, 5) else s.subscriptions
    ensures Apply(s, e).activeSubscriptionsCount == s.activeSubscriptionsCount +
      (if e.SubscriptionUpdated? && e.update.status == "active" then 1 else 0)
  {
    match e
    case VideoUpdate(c0, d) =>
      WithVideosSpec(s, c0, Upsert(Videos(s, c0), d));
      assert Apply(s, e) == WithVideos(s, c0, Upsert(Videos(s, c0), d));
    case SubscriptionUpdated(d) =>
      assert Apply(s, e) == CountActiveSubscription(PrependSubscription(s, d), d);
    case ActiveUsersCount(n) =>
      assert Apply(s, e) == s.(activeUsers := n);
    case NewUserSignup(n) =>
      assert Apply(s, e) == s.(newSignups := n);
    case SocketError(_) =>
  }

  /** The most recent video event of category `c` for id `id` in `es`. */
  function LatestFor(es: seq<Event>, c: Category, id: string): Option<VideoStatus>
    decreases |es|
  {
    if es == [] then None
    else match LatestFor(es[1..], c, id)
      case Some(d) => Some(d)
      case None =>
        if es[0].VideoUpdate? && es[0].category == c && es[0].status.videoId == id
        then Some(es[0].status) else None
  }

  /** Per-id uniqueness: without initial-data events in between, the mapping of a category holds
      for each id exactly the most recent event for that id (or what it held before), and
      never two entries for one id. */
  lemma {:induction false} LatestEventWins(s: State, es: seq<Event>, c: Category, id: string)
    requires forall i :: 0 <= i < |es| ==> !IsMerge(es[i])
    ensures Lookup(Videos(Run(s, es), c), id) ==
      if LatestFor(es, c, id).Some? then LatestFor(es, c, id) else Lookup(Videos(s, c), id)
    ensures UniqueKeys(Videos(s, c)) ==> UniqueKeys(Videos(Run(s, es), c))
    decreases |es|
  {
    if es != [] {
      var s' := Apply(s, es[0]);
      ApplyNonMerge(s, es[0], c);
      LatestEventWins(s', es[1..], c, id);
    }
  }

  /** The subscription updates of `es`, most recent first. */
  function UpdatesNewestFirst(es: seq<Event>): seq<SubscriptionUpdate>
    decreases |es|
  {
    if es == [] then []
    else UpdatesNewestFirst(es[1..]) + (if es[0].SubscriptionUpdated? then [es[0].update] else [])
  }

  /** The number of updates in `es` with the status "active". */
  function ActiveCount(es: seq<Event>): nat
    decreases |es|
  {
    if es == [] then 0
    else ActiveCount(es[1..]) + (if es[0].SubscriptionUpdated? && es[0].update.status == "active" then 1 else 0)
  }

  lemma TakeOfTake<T>(a: seq<T>, b: seq<T>, n: nat)
    ensures Take(a + Take(b, n), n) == Take(a + b, n)
  {
    var l := Min(n, |a| + |b|);
    assert |Take(a + Take(b, n), n)| == l;
    forall i | 0 <= i < l ensures Take(a + Take(b, n), n)[i] == Take(a + b, n)[i] {
      if i >= |a| {
        assert (a + Take(b, n))[i] == Take(b, n)[i - |a|];
      }
    }
  }

  /** Dropping the first event keeps a run free of initial-data events. */
  lemma NoMergeTail(es: seq<Event>)
    requires es != [] && forall i :: 0 <= i < |es| ==> !IsMerge(es[i])
    ensures !IsMerge(es[0]) && forall i :: 0 <= i < |es[1..]| ==> !IsMerge(es[1..][i])
  {
    forall i | 0 <= i < |es[1..]| ensures !IsMerge(es[1..][i]) {
      assert es[1..][i] == es[i + 1];
    }
  }

  /** Bounded history: without initial-data events, the list holds the newest updates first,
      followed by what was there, cut to five; a run without updates leaves the list as it was,
      however long the server sent it. */
  lemma {:induction false} SubscriptionHistory(s: State, es: seq<Event>)
    requires forall i :: 0 <= i < |es| ==> !IsMerge(es[i])
    ensures Run(s, es).subscriptions ==
      if UpdatesNewestFirst(es) == [] then s.subscriptions
      else Take(UpdatesNewestFirst(es) + s.subscriptions, 5)
    decreases |es|
  {
    if es != [] {
      var s' := Apply(s, es[0]);
      NoMergeTail(es);
      ApplyNonMerge(s, es[0], Transcoding);
      SubscriptionHistory(s', es[1..]);
      var newer := UpdatesNewestFirst(es[1..]);
      if es[0].SubscriptionUpdated? {
        var u := es[0].update;
        assert UpdatesNewestFirst(es) == newer + [u];
        if newer != [] {
          TakeOfTake(newer, [u] + s.subscriptions, 5);
          PrependAfterConcat(newer, u, s.subscriptions);
        } else {
          EmptyThenOne(u, s.subscriptions);
        }
      } else {
        assert UpdatesNewestFirst(es) == newer + [];
      }
    }
  }

  lemma PrependAfterConcat<T>(x: seq<T>, u: T, b: seq<T>)
    ensures x + ([u] + b) == (x + [u]) + b
  {
  }

  lemma EmptyThenOne<T>(u: T, b: seq<T>)
    ensures ([] + [u]) + b == [u] + b
  {
  }

  /** Without initial-data events, the counter rises by the number of "active" updates. */
  lemma {:induction false} ActiveCountHistory(s: State, es: seq<Event>)
    requires forall i :: 0 <= i < |es| ==> !IsMerge(es[i])
    ensures Run(s, es).activeSubscriptionsCount == s.activeSubscriptionsCount + ActiveCount(es)
    decreases |es|
  {
    if es != [] {
      var s' := Apply(s, es[0]);
      NoMergeTail(es);
      ApplyNonMerge(s, es[0], Transcoding);
      assert Run(s, es) == Run(s', es[1..]);
      ActiveCountHistory(s', es[1..]);
    }
  }

  /** One socket event delivered to `k` registrations of the same handler. The effect that
      registers the handlers runs again on every render, because `onEvent` is a new function
      each time, and it never removes the earlier registrations. */
  function ApplyRegistered(s: State, e: Event, k: nat): State
    decreases k
  {
    if k == 0 then s else Apply(ApplyRegistered(s, e, k - 1), e)
  }

  /** With `k` registrations, one "active" subscription update raises the counter by `k`
      and fills the head of the list with up to five copies of the update. */
  lemma {:induction false} RegisteredHandlersRepeat(s: State, u: SubscriptionUpdate, k: nat)
    requires u.status == "active"
    ensures ApplyRegistered(s, SubscriptionUpdated(u), k).activeSubscriptionsCount ==
      s.activeSubscriptionsCount + k
    ensures |ApplyRegistered(s, SubscriptionUpdated(u), k).subscriptions| >= Min(k, 5)
    ensures forall i :: 0 <= i < Min(k, 5) ==>
      ApplyRegistered(s, SubscriptionUpdated(u), k).subscriptions[i] == u
    decreases k
  {
    if k > 0 {
      var p := ApplyRegistered(s, SubscriptionUpdated(u), k - 1);
      RegisteredHandlersRepeat(s, u, k - 1);
      var r := OnSubscriptionUpdate(p, u);
      assert ApplyRegistered(s, SubscriptionUpdated(u), k) == r;
      forall i | 0 < i < Min(k, 5) ensures r.subscriptions[i] == u {
        assert r.subscriptions[i] == r.subscriptions[1..][i - 1];
      }
    }
  }

  /** Two registrations count one "active" update twice; one registration, as `Apply` has it,
      counts it once. */
  lemma DoubleRegistrationCountsTwice(s: State, u: SubscriptionUpdate)
    requires u.status == "active"
    ensures ApplyRegistered(s, SubscriptionUpdated(u), 2).activeSubscriptionsCount ==
      s.activeSubscriptionsCount + 2
    ensures Apply(s, SubscriptionUpdated(u)).activeSubscriptionsCount == s.activeSubscriptionsCount + 1
  {
    RegisteredHandlersRepeat(s, u, 2);
  }

  /** Error events leave the state as it was; a run of them changes nothing. */
  lemma {:induction false} ErrorsChangeNothing(s: State, es: seq<Event>)
    requires forall i :: 0 <= i < |es| ==> es[i].SocketError?
    ensures Run(s, es) == s
    decreases |es|
  {
    if es != [] {
      ErrorsChangeNothing(Apply(s, es[0]), es[1..]);
    }
  }

  /** A second event for a video replaces its entry instead of adding one. */
  lemma ReplaceScenario(s: State, m: map<string, string>, m': map<string, string>)
    requires s.transcodingVideos == [Entry("v1", VideoStatus("v1", "processing", m))]
    ensures Apply(s, VideoUpdate(Transcoding, VideoStatus("v1", "success", m'))).transcodingVideos
            == [Entry("v1", VideoStatus("v1", "success", m'))]
  {
    var d := VideoStatus("v1", "success", m');
    assert Without(s.transcodingVideos, "v1") == [];
    assert Upsert(s.transcodingVideos, d) == [] + [Entry("v1", d)];
  }

  /** Six updates on an empty list leave the last five, the most recent first. */
  lemma SubscriptionCapScenario(s: State, u: seq<SubscriptionUpdate>)
    requires s.subscriptions == [] && |u| == 6
    ensures Run(s, [SubscriptionUpdated(u[0]), SubscriptionUpdated(u[1]), SubscriptionUpdated(u[2]),
                    SubscriptionUpdated(u[3]), SubscriptionUpdated(u[4]), SubscriptionUpdated(u[5])]).subscriptions
            == [u[5], u[4], u[3], u[2], u[1]]
  {
    var es := [SubscriptionUpdated(u[0]), SubscriptionUpdated(u[1]), SubscriptionUpdated(u[2]),
               SubscriptionUpdated(u[3]), SubscriptionUpdated(u[4]), SubscriptionUpdated(u[5])];
    SubscriptionHistory(s, es);
    SixUpdatesNewestFirst(es, u);
    var all := [u[5], u[4], u[3], u[2], u[1], u[0]];
    assert all + s.subscriptions == all;
    assert Take(all, 5) == all[..5];
  }

  lemma SixUpdatesNewestFirst(es: seq<Event>, u: seq<SubscriptionUpdate>)
    requires |u| == 6
    requires es == [SubscriptionUpdated(u[0]), SubscriptionUpdated(u[1]), SubscriptionUpdated(u[2]),
                    SubscriptionUpdated(u[3]), SubscriptionUpdated(u[4]), SubscriptionUpdated(u[5])]
    ensures UpdatesNewestFirst(es) == [u[5], u[4], u[3], u[2], u[1], u[0]]
  {
    assert UpdatesNewestFirst(es[6..]) == [];
    assert es[5..][1..] == es[6..];
    assert UpdatesNewestFirst(es[5..]) == [u[5]];
    assert es[4..][1..] == es[5..];
    assert UpdatesNewestFirst(es[4..]) == [u[5], u[4]];
    assert es[3..][1..] == es[4..];
    assert UpdatesNewestFirst(es[3..]) == [u[5], u[4], u[3]];
    assert es[2..][1..] == es[3..];
    assert UpdatesNewestFirst(es[2..]) == [u[5], u[4], u[3], u[2]];
    assert es[1..][1..] == es[2..];
    assert UpdatesNewestFirst(es[1..]) == [u[5], u[4], u[3], u[2], u[1]];
  }
}
