/**
 The two ways the client finds a user's thread: one scan per channel, and one
 snapshot of all channels per run.
 */
module ThreadLookup {
  import opened Wrappers

  datatype ThreadData = ThreadData(userId: Option<int>, channel: Option<string>)

  datatype ListedThread = ListedThread(id: Option<int>, data: Option<ThreadData>)

  /** What the streamed thread list yields: a thread, or a broken stream. */
  datatype Item = Received(thread: ListedThread) | StreamFailed

  datatype LookupError = StreamError | MissingId | Ambiguous

  type Lookup = Result<Option<int>, LookupError>

  predicate OwnedBy(item: Item, userId: int) {
    item.Received? && item.thread.data.Some? && item.thread.data.value.userId == Some(userId)
  }

  predicate Matches(item: Item, userId: int, channel: string) {
    OwnedBy(item, userId) && item.thread.data.value.channel == Some(channel)
  }

  /** The ids of the threads of a channel, in list order. */
  ghost function MatchingIds(items: seq<Item>, userId: int, channel: string): seq<int> {
    if items == [] then []
    else
      var last := items[|items| - 1];
      var before := MatchingIds(items[..|items| - 1], userId, channel);
      if Matches(last, userId, channel) && last.thread.id.Some? then before + [last.thread.id.value] else before
  }

  /** The per-channel scan can read the whole list. */
  predicate Readable(items: seq<Item>, userId: int, channel: string) {
    forall item :: item in items ==>
      item.Received? && (Matches(item, userId, channel) ==> item.thread.id.Some?)
  }

  /** What the scan of one channel answers, from `i` on, with the match found so far. */
  function Scan(items: seq<Item>, i: nat, matching: Option<int>, userId: int, channel: string): Lookup
    requires i <= |items|
    decreases |items| - i
  {
    if i == |items| then Ok(matching)
    else if items[i].StreamFailed? then Err(StreamError)
    else if !Matches(items[i], userId, channel) then Scan(items, i + 1, matching, userId, channel)
    else if items[i].thread.id.None? then Err(MissingId)
    else if matching.Some? then Err(Ambiguous)
    else Scan(items, i + 1, items[i].thread.id, userId, channel)
  }

  /** The answer a list of matching ids calls for. */
  ghost function Verdict(ids: seq<int>): Lookup {
    if ids == [] then Ok(None) else if |ids| == 1 then Ok(Some(ids[0])) else Err(Ambiguous)
  }

  /** On a readable list the scan finds the unique thread, none, or an ambiguity. */
  lemma {:induction false} ScanVerdict(items: seq<Item>, i: nat, matching: Option<int>, userId: int, channel: string)
    requires i <= |items| && Readable(items, userId, channel)
    requires MatchingIds(items[..i], userId, channel) == if matching.Some? then [matching.value] else []
    ensures Scan(items, i, matching, userId, channel) == Verdict(MatchingIds(items, userId, channel))
    decreases |items| - i
  {
    if i == |items| {
      assert items[..i] == items;
    } else {
      assert items[i] in items && items[..i + 1][..i] == items[..i];
      if !Matches(items[i], userId, channel) {
        ScanVerdict(items, i + 1, matching, userId, channel);
      } else if matching.None? {
        ScanVerdict(items, i + 1, items[i].thread.id, userId, channel);
      } else {
        MoreMatches(items, i + 1, userId, channel);
      }
    }
  }

  /** `find_thread_by_channel_and_user_id`. */
  method FindThreadByChannel(items: seq<Item>, userId: int, channel: string) returns (r: Lookup)
    ensures r == Scan(items, 0, None, userId, channel)
    ensures Readable(items, userId, channel) ==> r == Verdict(MatchingIds(items, userId, channel))
  {
    if Readable(items, userId, channel) {
      ScanVerdict(items, 0, None, userId, channel);
    }
    var matching: Option<int> := None;
    for i := 0 to |items|
      invariant Scan(items, i, matching, userId, channel) == Scan(items, 0, None, userId, channel)
    {
      var item := items[i];
      if item.StreamFailed? {
        return Err(StreamError);
      }
      if !Matches(item, userId, channel) {
        continue;
      }
      if item.thread.id.None? {
        return Err(MissingId);
      }
      if matching.Some? {
        return Err(Ambiguous);
      }
      matching := item.thread.id;
    }
    return Ok(matching);
  }

  lemma {:induction false} MoreMatches(items: seq<Item>, i: nat, userId: int, channel: string)
    requires i <= |items|
    ensures |MatchingIds(items[..i], userId, channel)| <= |MatchingIds(items, userId, channel)|
    decreases |items| - i
  {
    if i < |items| {
      assert items[..i + 1][..i] == items[..i];
      MoreMatches(items, i + 1, userId, channel);
    } else {
      assert items[..i] == items;
    }
  }

  lemma ReadableStep(items: seq<Item>, i: nat, userId: int, channel: string)
    requires i < |items|
    ensures Readable(items[..i + 1], userId, channel) <==>
      && Readable(items[..i], userId, channel)
      && items[i].Received? && (Matches(items[i], userId, channel) ==> items[i].thread.id.Some?)
  {
    assert items[..i + 1] == items[..i] + [items[i]];
  }

  /** `find_thread_channels_by_user_id`: channels with more than one thread are left out. */
  method FindThreadChannels(items: seq<Item>, userId: int) returns (r: Result<map<string, int>, LookupError>)
    ensures r.Ok? ==> forall channel :: channel != "" ==> Readable(items, userId, channel)
    ensures r.Ok? ==> "" !in r.value
    ensures r.Ok? ==> forall channel :: channel != "" ==>
      var ids := MatchingIds(items, userId, channel);
      (channel in r.value <==> |ids| == 1) && (channel in r.value ==> r.value[channel] == ids[0])
    ensures (forall channel :: channel != "" ==> Readable(items, userId, channel)) ==> r.Ok?
  {
    var resolved: map<string, int> := map[];
    var ambiguous: set<string> := {};
    for i := 0 to |items|
      invariant "" !in resolved
      invariant forall channel :: channel != "" ==> Readable(items[..i], userId, channel)
      invariant forall channel :: channel != "" ==>
        var ids := MatchingIds(items[..i], userId, channel);
        && (channel in resolved <==> |ids| == 1)
        && (channel in resolved ==> resolved[channel] == ids[0])
        && (channel in ambiguous <==> |ids| >= 2)
    {
      assert items[..i + 1][..i] == items[..i];
      var item := items[i];
      ghost var next := items[..i + 1];
      forall channel
        ensures Readable(next, userId, channel) <==>
          && Readable(items[..i], userId, channel)
          && item.Received? && (Matches(item, userId, channel) ==> item.thread.id.Some?)
      {
        ReadableStep(items, i, userId, channel);
      }
      if item.StreamFailed? {
        assert item in items && !Readable(items, userId, "x");
        return Err(StreamError);
      }
      if !OwnedBy(item, userId) {
        continue;
      }
      var named := item.thread.data.value.channel;
      if named.None? || named.value == "" {
        continue;
      }
      if item.thread.id.None? {
        assert item in items && !Readable(items, userId, named.value);
        return Err(MissingId);
      }
      var channel := named.value;
      if channel in resolved {
        resolved := resolved - {channel};
        ambiguous := ambiguous + {channel};
      } else if channel !in ambiguous {
        resolved := resolved[channel := item.thread.id.value];
      }
    }
    assert items[..|items|] == items;
    return Ok(resolved);
  }

  /**
   Reading the snapshot first and scanning on a miss gives what scanning always
   would, for every list the snapshot was taken of: hits are the unique threads,
   and misses are the channels without a thread or with several.
   */
  method ResolveTargetThread(items: seq<Item>, userId: int, channel: string) returns (r: Lookup)
    ensures r == Scan(items, 0, None, userId, channel)
  {
    var snapshot := FindThreadChannels(items, userId);
    var channels := if snapshot.Ok? then snapshot.value else map[];
    if channel in channels {
      ScanVerdict(items, 0, None, userId, channel);
      return Ok(Some(channels[channel]));
    }
    r := FindThreadByChannel(items, userId, channel);
  }
}
