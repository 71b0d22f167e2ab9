/** Fast forward and rewind over an indexed playlist: the search that starts from the cached index,
    and whole trick-play runs with initialization sections and failed downloads. */
module TrickPlay {
  import opened Common
  import opened Playlist
  import opened TrackModel
  import Timeline
  import WindowScan

  // ----- The search of GetFragmentUriFromIndex ----------------------------------------------

  /** The first fragment from i on that ends at the target or later; |index| if there is none. */
  function FirstFrom(index: seq<IndexNode>, target: real, i: nat): (r: nat)
    requires i <= |index|
    ensures i <= r <= |index|
    ensures forall k :: i <= k < r ==> index[k].completion < target
    ensures r < |index| ==> index[r].completion >= target
    decreases |index| - i
  {
    if i == |index| || index[i].completion >= target then i else FirstFrom(index, target, i + 1)
  }

  /** The last fragment up to i that ends at the target or earlier; -1 if there is none. */
  function LastUpTo(index: seq<IndexNode>, target: real, i: int): (r: int)
    requires -1 <= i < |index|
    ensures -1 <= r <= i
    ensures forall k :: r < k <= i ==> index[k].completion > target
    ensures r >= 0 ==> index[r].completion <= target
    decreases i + 1
  {
    if i == -1 || index[i].completion <= target then i else LastUpTo(index, target, i - 1)
  }

  /** The search of the whole index, without a cached position. */
  function FullScan(index: seq<IndexNode>, target: real, forward: bool): int {
    if forward then var r := FirstFrom(index, target, 0); if r == |index| then -1 else r
    else LastUpTo(index, target, |index| - 1)
  }

  /** The cached index the search starts from. */
  function StartIdx(t: Track, forward: bool): int {
    if t.currentIdx != -1 then t.currentIdx else if forward then 0 else |t.index| - 1
  }

  /** A rewind copes with an index without nodes; a fast forward reads its last node first. */
  predicate Searchable(t: Track, forward: bool) {
    -1 <= t.currentIdx < |t.index| && (forward ==> |t.index| > 0)
  }

  /** The search from the cached index; -1 if no fragment fits. */
  function CachedScan(t: Track, forward: bool): (r: int)
    requires Searchable(t, forward)
    ensures -1 <= r < |t.index|
  {
    if forward then var r := FirstFrom(t.index, t.playTarget, StartIdx(t, true)); if r == |t.index| then -1 else r
    else LastUpTo(t.index, t.playTarget, StartIdx(t, false))
  }

  /** The line of the URI that follows an EXTINF: the first line that is not a tag or comment; none if that
      is blank. */
  function UriAfter(lines: seq<Line>, i: nat): (r: int)
    ensures r != -1 ==> i <= r < |lines| && lines[r].Uri? && NoUri(lines, i, r)
    ensures forall k :: i <= k < |lines| && lines[k].Uri? && NoUri(lines, i, k) ==>
                          r == if exists b :: i <= b < k && lines[b].Blank? then -1 else k
    decreases |lines| - i
  {
    if i >= |lines| || lines[i].Blank? then -1
    else if lines[i].Uri? then i
    else UriAfter(lines, i + 1)
  }

  /** No line of lines[i..k) is a URI. */
  ghost predicate NoUri(lines: seq<Line>, i: nat, k: int)
    requires k <= |lines|
  {
    forall j :: i <= j < k ==> !lines[j].Uri?
  }

  function FragmentLength(index: seq<IndexNode>, i: nat): real
    requires i < |index|
  {
    if i > 0 then index[i].completion - index[i - 1].completion else index[i].completion
  }

  /** The fragment at node i is presented: repeated if it is the one downloaded last. */
  function Present(t: Track, i: nat): Track
    requires i < |t.index|
  {
    var node := t.index[i];
    var newInit := node.init.Some? && t.initFragment != node.init;
    t.(currentIdx := i, fragmentURI := UriAfter(t.playlist, node.info), fragmentDuration := FragmentLength(t.index, i),
       initFragment := if newInit then node.init else t.initFragment, injectInit := t.injectInit || newInit,
       lastIFrameTarget := node.completion)
  }

  /** A live track playing past the seek window's end is at its end. */
  predicate PastWindow(t: Track, liveOffset: real)
    requires |t.index| > 0
  {
    t.live && t.playTarget > t.index[|t.index| - 1].completion - liveOffset
  }

  /** Trick play leaves the playlist and its index alone. */
  predicate SameMedia(t: Track, u: Track) {
    u.index == t.index && u.playlist == t.playlist && u.live == t.live
  }

  /** As for NextFragment, the returned pointer is stored in fragmentURI. */
  function FragmentFromIndex(t: Track, forward: bool, liveOffset: real): (r: Track)
    requires Searchable(t, forward)
    ensures Searchable(r, forward) && SameMedia(t, r) && r.playTarget == t.playTarget && r.eosReached == t.eosReached
  {
    if forward && PastWindow(t, liveOffset) then t.(fragmentURI := -1)
    else
      var i := CachedScan(t, forward);
      if i == -1 then t.(currentIdx := StartIdx(t, forward), fragmentURI := -1) else Present(t, i)
  }

  /** The same segment as last time was found. */
  predicate Repeated(t: Track, u: Track) {
    u.fragmentURI != -1 && t.lastIFrameTarget != -1.0 && u.lastIFrameTarget == t.lastIFrameTarget
  }

  // ----- The trick-play part of FetchFragmentHelper and FetchFragment -----------------------

  /** The target moves on by delta; a rewind stops at zero, and the end of the stream is noted. */
  function MoveTarget(u: Track, delta: real): (r: Track)
    ensures r == u.(eosReached := r.eosReached, playTarget := r.playTarget)
  {
    if delta >= 0.0 then u.(eosReached := u.eosReached || u.fragmentURI == -1, playTarget := u.playTarget + delta)
    else if u.fragmentURI == -1 || u.playTarget == 0.0 then u.(eosReached := true)
    else u.(playTarget := if u.playTarget > -delta then u.playTarget + delta else 0.0)
  }

  /** The node found is requested, unless its initialization section has to go first or it was the last
      one presented. */
  predicate Requested(t: Track, delta: real, liveOffset: real)
    requires Searchable(t, delta > 0.0)
  {
    var u := FragmentFromIndex(t, delta > 0.0, liveOffset);
    u.fragmentURI != -1 && !u.injectInit && !Repeated(t, u)
  }

  /** One fetch; delta is the rate divided by the trick-play frame rate, negative in rewind. */
  function TrickFetch(t: Track, delta: real, liveOffset: real, outcome: Outcome): (r: Track)
    requires Searchable(t, delta > 0.0)
    ensures Searchable(r, delta > 0.0) && SameMedia(t, r)
  {
    var u := MoveTarget(FragmentFromIndex(t, delta > 0.0, liveOffset), delta);
    if Requested(t, delta, liveOffset) then AfterDownload(u, delta, outcome) else u
  }

  /** One turn of the fetch loop: whether a pending initialization section arrives, how a download ends,
      whether the playlist is refreshed for another reason than a ramp-down (the refresh interval of a live
      stream has passed, or a lower profile was selected because the section did not arrive), and what a
      refresh downloads; no lines means that it fails. */
  datatype Turn = Turn(initFetched: bool, outcome: Outcome, refreshes: bool, downloaded: seq<Line>)

  /** The turn downloads a fragment, which fails, and a lower profile is selected. */
  predicate RampsDown(t: Track, turn: Turn, delta: real, liveOffset: real)
    requires Searchable(t, delta > 0.0)
  {
    var u := ServeInit(t, turn.initFetched);
    t.fragmentURI != -1 && !u.injectInit && Requested(u, delta, liveOffset) && turn.outcome == RampedDown
  }

  /** The turn up to its refresh. */
  function Served(t: Track, turn: Turn, delta: real, liveOffset: real): (r: Track)
    requires Searchable(t, delta > 0.0)
    ensures Searchable(r, delta > 0.0) && SameMedia(t, r)
  {
    var u := ServeInit(t, turn.initFetched);
    if u.injectInit then u else TrickFetch(u, delta, liveOffset, turn.outcome)
  }

  /** The turn refreshes the playlist: always after a ramp-down. */
  predicate Refreshes(t: Track, turn: Turn, delta: real, liveOffset: real)
    requires Searchable(t, delta > 0.0)
  {
    RampsDown(t, turn, delta, liveOffset) ||
    (t.fragmentURI != -1 && turn.refreshes && (t.live || ServeInit(t, turn.initFetched).injectInit))
  }

  /** A playlist that can be searched after a refresh: for a fast forward it lists a fragment. */
  predicate Playable(lines: seq<Line>, forward: bool) {
    lines != [] && forward ==> HasHeader(lines) && Timeline.Fragments(lines, 1, false) != []
  }

  function TrickTurn(t: Track, turn: Turn, delta: real, liveOffset: real): (r: Track)
    requires Searchable(t, delta > 0.0) && Playable(turn.downloaded, delta > 0.0)
    ensures Searchable(r, delta > 0.0)
  {
    if t.fragmentURI == -1 then t
    else
      var u := Served(t, turn, delta, liveOffset);
      RefreshSearches(u, turn.downloaded, delta > 0.0);
      if Refreshes(t, turn, delta, liveOffset) then Refresh(u, turn.downloaded) else u
  }

  /** A refresh that fails changes nothing; one that succeeds restarts the search and keeps the target. */
  lemma {:induction false} RefreshSearches(t: Track, lines: seq<Line>, forward: bool)
    requires Searchable(t, forward) && Playable(lines, forward)
    ensures var r := Refresh(t, lines);
            && Searchable(r, forward) && (lines == [] ==> r == t)
            && (lines != [] ==>
                  r.currentIdx == -1 && r.playTarget == t.playTarget && r.lastIFrameTarget == t.lastIFrameTarget &&
                  r.index == IndexPlaylist(t.(playlist := lines), true).index)
  {
    hide IndexPlaylist, Find, Timeline.Describes;
    if lines != [] {
      var u := IndexPlaylist(t.(playlist := lines), true);
      IndexKeeps(t.(playlist := lines), true);
      FindKeeps(u, 0, 0, None);
      if forward {
        Timeline.IndexPlaylistDescribes(t.(playlist := lines), true);
        IndexListsAll(u, Timeline.Fragments(lines, 1, false));
      }
    }
  }

  lemma {:induction false} IndexListsAll(u: Track, fs: seq<Timeline.Fragment>)
    requires Timeline.Describes(u.index, u.discontinuities, fs)
    ensures |u.index| == |fs|
  {
  }

  /** When a turn replaces the playlist: when something was downloaded for it, and its download ramped down,
      its initialization section did not arrive and it was asked to, or the stream is live and it was. */
  lemma {:induction false} PlaylistReplacedIff(t: Track, turn: Turn, delta: real, liveOffset: real)
    requires Searchable(t, delta > 0.0) && Playable(turn.downloaded, delta > 0.0)
    ensures var u := TrickTurn(t, turn, delta, liveOffset);
            var missing := t.injectInit && t.initFragment.Some? && !turn.initFetched;
            var replaced := turn.downloaded != [] && t.fragmentURI != -1 &&
                            (RampsDown(t, turn, delta, liveOffset) || (turn.refreshes && (t.live || missing)));
            u.playlist == if replaced then turn.downloaded else t.playlist
  {
    hide TrickFetch, IndexPlaylist, Find, Requested;
    IndexKeeps(Served(t, turn, delta, liveOffset).(playlist := turn.downloaded), true);
  }

  /** The completion time of the index node that a turn downloads successfully, if any. */
  function Downloads(t: Track, turn: Turn, delta: real, liveOffset: real): seq<real>
    requires Searchable(t, delta > 0.0)
  {
    var u := ServeInit(t, turn.initFetched);
    if t.fragmentURI != -1 && !u.injectInit && Requested(u, delta, liveOffset) && turn.outcome == Fetched
    then [FragmentFromIndex(u, delta > 0.0, liveOffset).lastIFrameTarget] else []
  }

  predicate AllPlayable(turns: seq<Turn>, forward: bool) {
    forall i :: 0 <= i < |turns| ==> Playable(turns[i].downloaded, forward)
  }

  function TrickRun(t: Track, turns: seq<Turn>, delta: real, liveOffset: real): (r: Track)
    requires Searchable(t, delta > 0.0) && AllPlayable(turns, delta > 0.0)
    ensures Searchable(r, delta > 0.0)
    decreases |turns|
  {
    if turns == [] then t else TrickRun(TrickTurn(t, turns[0], delta, liveOffset), turns[1..], delta, liveOffset)
  }

  function RunDownloads(t: Track, turns: seq<Turn>, delta: real, liveOffset: real): seq<real>
    requires Searchable(t, delta > 0.0) && AllPlayable(turns, delta > 0.0)
    decreases |turns|
  {
    if turns == [] then []
    else Downloads(t, turns[0], delta, liveOffset) +
         RunDownloads(TrickTurn(t, turns[0], delta, liveOffset), turns[1..], delta, liveOffset)
  }

  // ----- The URI of a node --------------------------------------------------------------------

  /** Line r is the URI of the EXTINF at line i. */
  ghost predicate IsUriOf(lines: seq<Line>, i: int, r: int) {
    0 <= i < r < |lines| && lines[i].Inf? && lines[r].Uri? && NoUri(lines, i, r)
  }

  /** What is presented for node k of an indexed playlist: the URI of EXTINF k, unless a blank line comes
      first, its duration, and the section in force there. */
  lemma {:induction false} NodePresented(t: Track, isRefresh: bool, k: nat)
    requires HasHeader(t.playlist) && k < |IndexPlaylist(t, isRefresh).index|
    ensures k < |Timeline.Extinfs(t.playlist, 1)| && Timeline.Extinfs(t.playlist, 1)[k] < |t.playlist|
    ensures var p, lines, e := Present(IndexPlaylist(t, isRefresh), k), t.playlist, Timeline.Extinfs(t.playlist, 1)[k];
            && lines[e].Inf? && p.fragmentDuration == lines[e].duration && p.currentIdx == k
            && p.initFragment == SectionAt(lines, 1, e, None) && (p.initFragment.Some? ==> p.injectInit)
            && (p.fragmentURI != -1 ==> IsUriOf(lines, e, p.fragmentURI))
            && forall r :: IsUriOf(lines, e, r) && (forall b :: e <= b < r ==> !lines[b].Blank?) ==> p.fragmentURI == r
  {
    hide IndexPlaylist, UriAfter, Timeline.Extinfs, Timeline.Fragments, SectionAt;
    var u, fs, infs := IndexPlaylist(t, isRefresh), Timeline.Fragments(t.playlist, 1, false),
      Timeline.Extinfs(t.playlist, 1);
    IndexKeeps(t, isRefresh);
    Timeline.IndexPlaylistSources(t, isRefresh);
    Timeline.IndexPlaylistDescribes(t, isRefresh);
    Timeline.FragmentsLast(t.playlist, 1, false, k);
    assert Timeline.IsSource(u.index[k], t.playlist, infs[k]);
    assert Timeline.Total(fs, k + 1) == Timeline.Total(fs, k) + fs[k].duration;
  }

  /** In a window without blank lines inside its segments node k is presented at the URI of segment k. */
  lemma {:induction false} WindowNodePresented(t: Track, w: Window, b: Broadcast, k: nat)
    requires IsWindow(t.playlist, w, b) && WindowScan.Indexed(t.index, t.indexFirst, w, b) && k < w.Count()
    requires forall j :: w.infAt[k] <= j < w.uriAt[k] && j < |t.playlist| ==> !t.playlist[j].Blank?
    ensures var p := Present(t, k); p.fragmentURI == w.uriAt[k] && p.fragmentDuration == b.duration(w.first + k)
  {
    hide UriAfter;
    WindowScan.SegmentLines(t.playlist, w, b, k);
    assert NoUri(t.playlist, w.infAt[k], w.uriAt[k]);
    assert Span(b, w.first, w.first + k + 1) == Span(b, w.first, w.first + k) + b.duration(w.first + k);
  }

  /** Every node of the index stands for an EXTINF of the playlist held. */
  ghost predicate AllSourced(t: Track) {
    forall k :: 0 <= k < |t.index| ==> Timeline.IsSource(t.index[k], t.playlist, t.index[k].info)
  }

  /** A turn that downloads the node ending at a time fetches the URI of that node's EXTINF. */
  ghost predicate FetchesItsUri(t: Track, turn: Turn, delta: real, liveOffset: real)
    requires Searchable(t, delta > 0.0)
  {
    Downloads(t, turn, delta, liveOffset) != [] ==>
      var w := FragmentFromIndex(ServeInit(t, turn.initFetched), delta > 0.0, liveOffset);
      exists k :: 0 <= k < |t.index| && [t.index[k].completion] == Downloads(t, turn, delta, liveOffset) &&
                  IsUriOf(t.playlist, t.index[k].info, w.fragmentURI)
  }

  ghost predicate AllFetchTheirUri(t: Track, turns: seq<Turn>, delta: real, liveOffset: real)
    requires Searchable(t, delta > 0.0) && AllPlayable(turns, delta > 0.0)
    decreases |turns|
  {
    turns == [] ||
    (FetchesItsUri(t, turns[0], delta, liveOffset) &&
     AllFetchTheirUri(TrickTurn(t, turns[0], delta, liveOffset), turns[1..], delta, liveOffset))
  }

  lemma {:induction false} IndexAllSourced(t: Track, isRefresh: bool)
    ensures AllSourced(IndexPlaylist(t, isRefresh))
  {
    hide IndexPlaylist, Timeline.Extinfs;
    IndexKeeps(t, isRefresh);
    if HasHeader(t.playlist) {
      Timeline.IndexPlaylistSources(t, isRefresh);
      var u := IndexPlaylist(t, isRefresh);
      forall k | 0 <= k < |u.index| ensures Timeline.IsSource(u.index[k], t.playlist, u.index[k].info) {
        assert Timeline.IsSource(u.index[k], t.playlist, Timeline.Extinfs(t.playlist, 1)[k]);
      }
    }
  }

  lemma {:induction false} RefreshSourced(t: Track, lines: seq<Line>)
    requires AllSourced(t)
    ensures AllSourced(Refresh(t, lines))
  {
    hide IndexPlaylist, Find;
    IndexAllSourced(t.(playlist := lines), true);
    FindKeeps(IndexPlaylist(t.(playlist := lines), true), 0, 0, None);
  }

  lemma {:induction false} FoundFetchesItsUri(t: Track, turn: Turn, delta: real, liveOffset: real)
    requires Searchable(t, delta > 0.0) && AllSourced(t)
    ensures FetchesItsUri(t, turn, delta, liveOffset)
  {
    hide UriAfter, CachedScan, FragmentLength, PastWindow;
    var u := ServeInit(t, turn.initFetched);
    var w := FragmentFromIndex(u, delta > 0.0, liveOffset);
    if Downloads(t, turn, delta, liveOffset) != [] {
      var k := w.currentIdx;
      assert Timeline.IsSource(t.index[k], t.playlist, t.index[k].info);
      assert w.fragmentURI == UriAfter(t.playlist, t.index[k].info);
      assert IsUriOf(t.playlist, t.index[k].info, w.fragmentURI);
    }
  }

  /** Over every run each download fetches the URI of its node. */
  lemma {:induction false} RunFetchesItsUris(t: Track, turns: seq<Turn>, delta: real, liveOffset: real)
    requires Searchable(t, delta > 0.0) && AllPlayable(turns, delta > 0.0) && AllSourced(t)
    ensures AllFetchTheirUri(t, turns, delta, liveOffset)
    decreases |turns|
  {
    hide FetchesItsUri, Served, Timeline.IsSource, Refresh, Refreshes;
    if turns != [] {
      FoundFetchesItsUri(t, turns[0], delta, liveOffset);
      RefreshSourced(Served(t, turns[0], delta, liveOffset), turns[0].downloaded);
      RunFetchesItsUris(TrickTurn(t, turns[0], delta, liveOffset), turns[1..], delta, liveOffset);
    }
  }

  // ----- Cached search equals full scan -----------------------------------------------------

  /** The cached index has not overtaken the target. */
  ghost predicate Cached(t: Track, forward: bool) {
    && Searchable(t, forward)
    && (t.currentIdx != -1 ==>
          if forward then forall k :: 0 <= k < t.currentIdx ==> t.index[k].completion < t.playTarget
          else forall k :: t.currentIdx < k < |t.index| ==> t.index[k].completion > t.playTarget)
  }

  /** The search from the cached index finds what a scan of the whole index would find if and only if the
      cached index has not overtaken the target. */
  lemma {:induction false} CachedScanIsFullScan(t: Track, forward: bool)
    requires Searchable(t, forward)
    ensures CachedScan(t, forward) == FullScan(t.index, t.playTarget, forward) <==> Cached(t, forward)
  {
    if Cached(t, forward) {
      if forward {
        FirstFromPrefix(t.index, t.playTarget, 0, StartIdx(t, true));
      } else {
        LastUpToSuffix(t.index, t.playTarget, StartIdx(t, false), |t.index| - 1);
      }
    }
  }

  lemma {:induction false} FirstFromPrefix(index: seq<IndexNode>, target: real, i: nat, j: nat)
    requires i <= j <= |index| && forall k :: i <= k < j ==> index[k].completion < target
    ensures FirstFrom(index, target, i) == FirstFrom(index, target, j)
    decreases j - i
  {
    if i < j {
      FirstFromPrefix(index, target, i + 1, j);
    }
  }

  lemma {:induction false} LastUpToSuffix(index: seq<IndexNode>, target: real, i: int, j: int)
    requires -1 <= i <= j < |index| && forall k :: i < k <= j ==> index[k].completion > target
    ensures LastUpTo(index, target, i) == LastUpTo(index, target, j)
    decreases j - i
  {
    if i < j {
      LastUpToSuffix(index, target, i, j - 1);
    }
  }

  /** The fields of a track in trick play that matter for its run. */
  ghost predicate Spooling(t: Track, delta: real) {
    Cached(t, delta > 0.0) && delta != 0.0 && (delta < 0.0 ==> t.playTarget >= 0.0)
  }

  lemma {:induction false} FindKeepsCached(t: Track, forward: bool, liveOffset: real)
    requires Cached(t, forward)
    ensures var u := FragmentFromIndex(t, forward, liveOffset);
            Cached(u, forward) && (u.fragmentURI != -1 ==> u.currentIdx >= 0)
  {
    hide UriAfter, FragmentLength;
  }

  /** Moving the target on, and taking it back by no more than it was moved, keeps the search exact. */
  lemma {:induction false} MoveKeepsCached(u: Track, delta: real, outcome: Outcome)
    requires Spooling(u, delta)
    ensures var v := MoveTarget(u, delta);
            && Spooling(v, delta)
            && var r := AfterDownload(v, delta, outcome);
               && (delta < 0.0 ==> r.playTarget >= 0.0) && r.currentIdx == u.currentIdx
               && (u.fragmentURI != -1 ==>
                     if outcome == RampedDown && delta < 0.0 && u.playTarget <= -delta then r.playTarget == -delta
                     else Spooling(r, delta))
  {
  }

  /** The fetch of a turn leaves the search exact, unless it ramps down in a rewind that is at most one step
      from the beginning: there the target was cut off at zero, and a whole step is taken back. */
  lemma {:induction false} ServedKeepsSpooling(t: Track, turn: Turn, delta: real, liveOffset: real)
    requires Spooling(t, delta) && t.fragmentURI != -1
    ensures var u := Served(t, turn, delta, liveOffset);
            && (delta < 0.0 ==> u.playTarget >= 0.0)
            && (if RampsDown(t, turn, delta, liveOffset) && delta < 0.0 && t.playTarget <= -delta
                then u.playTarget == -delta && u.currentIdx >= 0
                else Spooling(u, delta))
  {
    hide FragmentFromIndex, Repeated, MoveTarget, AfterDownload, Spooling;
    SpoolingMeans(t, delta);
    var v := ServeInit(t, turn.initFetched);
    SpoolingIs(v, delta);
    if !v.injectInit {
      FindKeepsCached(v, delta > 0.0, liveOffset);
      var w := FragmentFromIndex(v, delta > 0.0, liveOffset);
      SpoolingIs(w, delta);
      MoveKeepsCached(w, delta, turn.outcome);
      SpoolingMeans(MoveTarget(w, delta), delta);
    }
  }

  lemma {:induction false} SpoolingMeans(t: Track, delta: real)
    requires Spooling(t, delta)
    ensures Cached(t, delta > 0.0) && delta != 0.0 && (delta < 0.0 ==> t.playTarget >= 0.0)
  {
  }

  lemma {:induction false} SpoolingIs(t: Track, delta: real)
    requires Cached(t, delta > 0.0) && delta != 0.0 && (delta < 0.0 ==> t.playTarget >= 0.0)
    ensures Spooling(t, delta)
  {
  }

  /** A turn that takes the target back beyond where it was, without a new playlist. */
  predicate StepsBack(t: Track, turn: Turn, delta: real, liveOffset: real)
    requires Searchable(t, delta > 0.0)
  {
    RampsDown(t, turn, delta, liveOffset) && delta < 0.0 && t.playTarget <= -delta && turn.downloaded == []
  }

  /** No node beyond the one searched from ends at the given target or before. */
  ghost predicate NoneBeyond(t: Track, target: real)
    requires t.currentIdx >= -1
  {
    forall k :: t.currentIdx < k < |t.index| ==> t.index[k].completion > target
  }

  /** From an exact search, the next one is exact too if and only if, in case the turn steps back, no node
      beyond the one found ends within one step. In particular it is exact whenever the playlist is
      replaced, and the target of a rewind is never negative. */
  lemma {:induction false} TurnSearchesExactly(t: Track, turn: Turn, delta: real, liveOffset: real)
    requires Spooling(t, delta) && Playable(turn.downloaded, delta > 0.0)
    ensures var u := TrickTurn(t, turn, delta, liveOffset);
            && (delta < 0.0 ==> u.playTarget >= 0.0)
            && (Spooling(u, delta) <==> CachedScan(u, delta > 0.0) == FullScan(u.index, u.playTarget, delta > 0.0))
            && (Spooling(u, delta) <==> StepsBack(t, turn, delta, liveOffset) ==> NoneBeyond(u, -delta))
            && (StepsBack(t, turn, delta, liveOffset) ==> u.playTarget == -delta && u.currentIdx >= 0)
  {
    hide FragmentFromIndex, Repeated, Requested, TrickFetch, CachedScan, FullScan, IndexPlaylist, Refresh, Served,
        Playable, ServeInit;
    var u := TrickTurn(t, turn, delta, liveOffset);
    CachedScanIsFullScan(u, delta > 0.0);
    if t.fragmentURI != -1 {
      ServedKeepsSpooling(t, turn, delta, liveOffset);
      RefreshSearches(Served(t, turn, delta, liveOffset), turn.downloaded, delta > 0.0);
    }
  }

  /** Every turn that steps back finds no node beyond the one it found that ends within one step. */
  ghost predicate AllExact(t: Track, turns: seq<Turn>, delta: real, liveOffset: real)
    requires Searchable(t, delta > 0.0) && AllPlayable(turns, delta > 0.0)
    decreases |turns|
  {
    turns == [] ||
    var u := TrickTurn(t, turns[0], delta, liveOffset);
    (StepsBack(t, turns[0], delta, liveOffset) ==> NoneBeyond(u, -delta)) && AllExact(u, turns[1..], delta, liveOffset)
  }

  /** In every state of the run the search from the cached index finds what a scan of the whole index would
      find. */
  ghost predicate SearchesExactly(t: Track, turns: seq<Turn>, delta: real, liveOffset: real)
    requires Searchable(t, delta > 0.0) && AllPlayable(turns, delta > 0.0)
    decreases |turns|
  {
    && CachedScan(t, delta > 0.0) == FullScan(t.index, t.playTarget, delta > 0.0)
    && (turns == [] || SearchesExactly(TrickTurn(t, turns[0], delta, liveOffset), turns[1..], delta, liveOffset))
  }

  lemma {:induction false} SpoolingSearches(t: Track, delta: real)
    requires Spooling(t, delta)
    ensures Searchable(t, delta > 0.0) && CachedScan(t, delta > 0.0) == FullScan(t.index, t.playTarget, delta > 0.0)
  {
    CachedScanIsFullScan(t, delta > 0.0);
  }

  /** The search is exact in every state of a trick-play run, with whatever sections and downloads fail and
      whatever playlists are refreshed, if and only if every turn that steps back meets the condition. */
  lemma {:induction false} RunSearchesExactly(t: Track, turns: seq<Turn>, delta: real, liveOffset: real)
    requires Spooling(t, delta) && AllPlayable(turns, delta > 0.0)
    ensures SearchesExactly(t, turns, delta, liveOffset) <==> AllExact(t, turns, delta, liveOffset)
    decreases |turns|
  {
    hide TrickTurn, CachedScan, FullScan, StepsBack, NoneBeyond, Spooling;
    SpoolingSearches(t, delta);
    if turns != [] {
      var u := TrickTurn(t, turns[0], delta, liveOffset);
      TurnSearchesExactly(t, turns[0], delta, liveOffset);
      if Spooling(u, delta) {
        RunSearchesExactly(u, turns[1..], delta, liveOffset);
      }
    }
  }

  /** Four nodes of one second, an I-frame each. */
  const FOUR_NODES := [IndexNode(1.0, 1, None), IndexNode(2.0, 3, None), IndexNode(3.0, 5, None),
                       IndexNode(4.0, 7, None)]

  /** A ramp-down one step from the beginning of a rewind whose refresh fails: the whole index would be
      searched from its last node again, the cached search stays at the second one. */
  lemma {:induction false} RampDownOvershoots(t: Track)
    requires t.index == FOUR_NODES && t.currentIdx == -1 && t.playTarget == 2.5 && t.lastIFrameTarget == -1.0
    requires |t.playlist| > 3 && t.playlist[3].Uri? && t.fragmentURI != -1 && !t.injectInit
    ensures Spooling(t, -4.0)
    ensures var u := TrickTurn(t, Turn(true, RampedDown, false, []), -4.0, 0.0);
            u.playTarget == 4.0 && CachedScan(u, false) == 1 && FullScan(u.index, u.playTarget, false) == 3
  {
    assert LastUpTo(t.index, 2.5, 3) == LastUpTo(t.index, 2.5, 2) == 1;
    var u := FragmentFromIndex(t, false, 0.0);
    assert u.currentIdx == 1 && u.fragmentURI == 3;
    assert LastUpTo(t.index, 4.0, 1) == 1 && LastUpTo(t.index, 4.0, 3) == 3;
  }

  /** Where a fast forward ends: at the last node on-demand, and liveOffset before the end of the last one
      when live. Up to there the first node that ends at the target or later is presented. */
  lemma {:induction false} ForwardPresents(t: Track, liveOffset: real)
    requires Cached(t, true)
    ensures var u, last := FragmentFromIndex(t, true, liveOffset), t.index[|t.index| - 1].completion;
            && (t.live && t.playTarget > last - liveOffset ==> u == t.(fragmentURI := -1))
            && (!(t.live && t.playTarget > last - liveOffset) ==>
                  forall k :: 0 <= k < |t.index| && t.index[k].completion >= t.playTarget &&
                              (forall j :: 0 <= j < k ==> t.index[j].completion < t.playTarget) ==>
                    u == Present(t, k))
  {
    hide Present;
    CachedScanIsFullScan(t, true);
  }

  // ----- Runs end ---------------------------------------------------------------------------

  /** Initialization sections arrive, no download ramps down, and the playlist is not refreshed. */
  predicate AllServe(turns: seq<Turn>) {
    forall i :: 0 <= i < |turns| ==> Serves(turns[i])
  }

  predicate Serves(turn: Turn) {
    turn.initFetched && turn.outcome != RampedDown && !turn.refreshes && turn.downloaded == []
  }

  /** The loop has stopped only if the end was noted. */
  predicate Spins(t: Track) { t.fragmentURI == -1 ==> t.eosReached }

  /** A turn with a section at hand and neither a ramp-down nor a refresh notes the end or moves the target
      on, and the end stays noted. */
  lemma {:induction false} TurnAdvances(t: Track, turn: Turn, delta: real, liveOffset: real)
    requires Searchable(t, delta > 0.0) && Spins(t) && Serves(turn)
    ensures var u := TrickTurn(t, turn, delta, liveOffset);
            && Spins(u) && SameMedia(t, u) && (t.eosReached ==> u.eosReached)
            && (u.eosReached || u.playTarget == t.playTarget + delta || (delta < 0.0 && u.playTarget == 0.0))
            && (delta < 0.0 && t.playTarget == 0.0 ==> u.eosReached)
            && (delta < 0.0 && t.playTarget >= 0.0 ==> u.playTarget >= 0.0)
  {
    hide FragmentFromIndex, Repeated, Refresh, Playable;
  }

  lemma {:induction false} EndStays(t: Track, turns: seq<Turn>, delta: real, liveOffset: real)
    requires Searchable(t, delta > 0.0) && t.eosReached && AllServe(turns)
    ensures TrickRun(t, turns, delta, liveOffset).eosReached
    decreases |turns|
  {
    hide TrickTurn;
    if turns != [] {
      TurnAdvances(t, turns[0], delta, liveOffset);
      EndStays(TrickTurn(t, turns[0], delta, liveOffset), turns[1..], delta, liveOffset);
    }
  }

  lemma {:induction false} NothingFound(t: Track, turn: Turn, delta: real, liveOffset: real)
    requires Searchable(t, true) && Spins(t) && delta > 0.0 && Serves(turn)
    requires forall k :: 0 <= k < |t.index| ==> t.index[k].completion < t.playTarget
    ensures TrickTurn(t, turn, delta, liveOffset).eosReached
  {
    hide UriAfter, FragmentLength;
    assert CachedScan(ServeInit(t, true), true) == -1;
  }

  /** Fast forward reaches the end as soon as its target has passed every completion time. */
  lemma {:induction false} ForwardEnds(t: Track, turns: seq<Turn>, delta: real, liveOffset: real)
    requires Searchable(t, true) && Spins(t) && delta > 0.0 && AllServe(turns) && turns != []
    requires forall k :: 0 <= k < |t.index| ==> t.index[k].completion < t.playTarget + (|turns| - 1) as real * delta
    ensures TrickRun(t, turns, delta, liveOffset).eosReached
    decreases |turns|
  {
    hide TrickTurn, Spins;
    var u := TrickTurn(t, turns[0], delta, liveOffset);
    TurnAdvances(t, turns[0], delta, liveOffset);
    if |turns| == 1 {
      NothingFound(t, turns[0], delta, liveOffset);
    } else if !u.eosReached {
      assert (|turns| - 1) as real * delta == (|turns| - 2) as real * delta + delta;
      ForwardEnds(u, turns[1..], delta, liveOffset);
    }
    if u.eosReached {
      EndStays(u, turns[1..], delta, liveOffset);
    }
  }

  /** Rewind reaches the beginning within the number of turns that cover its initial target. */
  lemma {:induction false} RewindEnds(t: Track, turns: seq<Turn>, delta: real, liveOffset: real)
    requires Searchable(t, false) && Spins(t) && delta < 0.0 && AllServe(turns) && turns != []
    requires t.playTarget >= 0.0 && t.playTarget + (|turns| - 1) as real * delta <= 0.0
    ensures TrickRun(t, turns, delta, liveOffset).eosReached
    decreases |turns|
  {
    hide TrickTurn, Spins;
    var u := TrickTurn(t, turns[0], delta, liveOffset);
    TurnAdvances(t, turns[0], delta, liveOffset);
    if u.eosReached {
      EndStays(u, turns[1..], delta, liveOffset);
    } else {
      assert (|turns| - 1) as real * delta == (|turns| - 2) as real * delta + delta;
      if u.playTarget == 0.0 {
        assert (|turns| - 2) as real * delta <= 0.0;
      }
      RewindEnds(u, turns[1..], delta, liveOffset);
    }
  }

  // ----- No segment is downloaded twice -----------------------------------------------------

  ghost predicate StrictlyTimed(index: seq<IndexNode>) {
    && (forall k :: 0 <= k < |index| ==> index[k].completion > 0.0)
    && (forall k, m :: 0 <= k < m < |index| ==> index[k].completion < index[m].completion)
  }

  /** Completion time x is reached before y in the direction of play. */
  predicate Before(x: real, y: real, forward: bool) {
    if forward then x < y else x > y
  }

  /** The completion times follow one another in the direction of play, none twice. */
  ghost predicate InOrder(d: seq<real>, forward: bool) {
    forall i, j :: 0 <= i < j < |d| ==> Before(d[i], d[j], forward)
  }

  ghost predicate AllBefore(d: seq<real>, y: real, forward: bool) {
    forall x :: x in d ==> Before(x, y, forward)
  }

  /** What was presented last is the node searched from. */
  ghost predicate Presented(t: Track) {
    t.lastIFrameTarget == -1.0 || (0 <= t.currentIdx < |t.index| &&
                                   t.lastIFrameTarget == t.index[t.currentIdx].completion)
  }

  /** A segment ending at x lies behind: before the target, or remembered as presented, or, where a rewind
      has stepped back to at most one step from the beginning, before the node searched from. */
  ghost predicate Behind(t: Track, x: real, delta: real) {
    || Before(x, t.playTarget, delta > 0.0) || x == t.lastIFrameTarget
    || (delta < 0.0 && t.playTarget <= -delta && 0 <= t.currentIdx < |t.index| && x > t.index[t.currentIdx].completion)
  }

  ghost predicate AllBehind(t: Track, d: seq<real>, delta: real) {
    forall x :: x in d ==> x > 0.0 && Behind(t, x, delta)
  }

  /** The segments that end at d were downloaded, in order, and lie behind. */
  ghost predicate Reached(t: Track, d: seq<real>, delta: real) {
    && Searchable(t, delta > 0.0) && Presented(t) && StrictlyTimed(t.index) && InOrder(d, delta > 0.0)
    && delta != 0.0 && (delta < 0.0 ==> t.playTarget >= 0.0) && AllBehind(t, d, delta)
  }

  /** Everything downloaded lies behind what the search found, or, if that is a new node, before it and, but
      for a rewind that has stepped back, before the target. */
  ghost predicate FoundNext(t: Track, u: Track, d: seq<real>, delta: real) {
    && Presented(u) && AllBehind(u, d, delta)
    && (u.fragmentURI != -1 && !Repeated(t, u) ==>
          && u.lastIFrameTarget > 0.0 && 0 <= u.currentIdx < |u.index|
          && u.lastIFrameTarget == u.index[u.currentIdx].completion
          && AllBefore(d, u.lastIFrameTarget, delta > 0.0)
          && (delta > 0.0 || t.playTarget > -delta ==> AllBefore(d, t.playTarget, delta > 0.0)))
  }

  lemma {:induction false} FoundAhead(t: Track, d: seq<real>, delta: real, liveOffset: real)
    requires Reached(t, d, delta) && delta > 0.0
    ensures FoundNext(t, FragmentFromIndex(t, true, liveOffset), d, delta)
  {
    hide UriAfter, FragmentLength, InOrder, PastWindow;
  }

  lemma {:induction false} FoundBack(t: Track, d: seq<real>, delta: real, liveOffset: real)
    requires Reached(t, d, delta) && delta < 0.0
    ensures FoundNext(t, FragmentFromIndex(t, false, liveOffset), d, delta)
  {
    hide UriAfter, FragmentLength, InOrder, PastWindow;
  }

  /** A node found is the last one presented, repeated, or lies beyond everything downloaded. */
  lemma {:induction false} FoundBeyond(t: Track, d: seq<real>, delta: real, liveOffset: real)
    requires Reached(t, d, delta)
    ensures FoundNext(t, FragmentFromIndex(t, delta > 0.0, liveOffset), d, delta)
  {
    hide FragmentFromIndex, FoundNext, Presented, AllBehind, StrictlyTimed, InOrder;
    if delta > 0.0 {
      FoundAhead(t, d, delta, liveOffset);
    } else {
      FoundBack(t, d, delta, liveOffset);
    }
  }

  /** What holds of the track found, its target not moved yet. */
  ghost predicate Finds(t: Track, u: Track, d: seq<real>, delta: real) {
    && Searchable(u, delta > 0.0) && SameMedia(t, u) && u.playTarget == t.playTarget && StrictlyTimed(u.index)
    && delta != 0.0 && (delta < 0.0 ==> u.playTarget >= 0.0) && InOrder(d, delta > 0.0) && FoundNext(t, u, d, delta)
  }

  lemma {:induction false} FindsAll(t: Track, d: seq<real>, delta: real, liveOffset: real)
    requires Reached(t, d, delta)
    ensures Finds(t, FragmentFromIndex(t, delta > 0.0, liveOffset), d, delta)
  {
    hide FragmentFromIndex, FoundNext, StrictlyTimed, InOrder, Presented, AllBehind;
    FoundBeyond(t, d, delta, liveOffset);
  }

  /** Nothing is requested: the target moves on. */
  lemma {:induction false} MoveReaches(t: Track, u: Track, d: seq<real>, delta: real)
    requires Finds(t, u, d, delta)
    ensures Reached(MoveTarget(u, delta), d, delta)
  {
    hide StrictlyTimed, InOrder;
    var r := MoveTarget(u, delta);
    forall x | x in d ensures x > 0.0 && Behind(r, x, delta) {
      assert Behind(u, x, delta);
    }
  }

  /** The node found is downloaded, or forgotten. */
  lemma {:induction false} FetchReaches(t: Track, u: Track, d: seq<real>, delta: real)
    requires Finds(t, u, d, delta) && u.fragmentURI != -1 && !Repeated(t, u)
    ensures var r := MoveTarget(u, delta);
            Reached(r, d + [u.lastIFrameTarget], delta) && Reached(r.(lastIFrameTarget := -1.0), d, delta)
  {
    hide StrictlyTimed;
    MoveReaches(t, u, d, delta);
    var r := MoveTarget(u, delta);
    forall x | x in d ensures x > 0.0 && (Before(x, r.playTarget, delta > 0.0) || x == r.lastIFrameTarget) {
      assert Behind(u, x, delta);
    }
  }

  /** After a ramp-down the node found is still to come. The target is where it was, or one step from the
      beginning. */
  lemma {:induction false} RampDownReaches(t: Track, u: Track, d: seq<real>, delta: real)
    requires Finds(t, u, d, delta) && u.fragmentURI != -1 && !Repeated(t, u)
    ensures var r := AfterDownload(MoveTarget(u, delta), delta, RampedDown);
            && Reached(r, d, delta)
            && r.playTarget == (if delta < 0.0 && t.playTarget <= -delta then -delta else t.playTarget)
            && (delta > 0.0 || t.playTarget > -delta ==> AllBefore(d, r.playTarget, delta > 0.0))
  {
    hide StrictlyTimed, InOrder;
    var r := AfterDownload(MoveTarget(u, delta), delta, RampedDown);
    forall x | x in d ensures x > 0.0 && Behind(r, x, delta) {
      assert Behind(u, x, delta);
    }
  }

  /** Only the cursor of the search, the target and what was presented last matter. */
  lemma {:induction false} ReachedSame(t: Track, u: Track, d: seq<real>, delta: real)
    requires Reached(t, d, delta) && u.index == t.index && u.currentIdx == t.currentIdx
    requires u.playTarget == t.playTarget && u.lastIFrameTarget == t.lastIFrameTarget
    ensures Reached(u, d, delta)
  {
  }

  lemma {:induction false} ServedReaches(t: Track, d: seq<real>, turn: Turn, delta: real, liveOffset: real)
    requires Reached(t, d, delta) && t.fragmentURI != -1
    ensures var u := Served(t, turn, delta, liveOffset);
            && Reached(u, d + Downloads(t, turn, delta, liveOffset), delta)
            && (RampsDown(t, turn, delta, liveOffset) ==>
                  && u.lastIFrameTarget == -1.0 && Downloads(t, turn, delta, liveOffset) == []
                  && u.playTarget == (if delta < 0.0 && t.playTarget <= -delta then -delta else t.playTarget)
                  && (delta > 0.0 || t.playTarget > -delta ==> AllBefore(d, u.playTarget, delta > 0.0)))
  {
    hide FragmentFromIndex, Reached, Finds, Repeated, MoveTarget, AllBefore;
    var v := ServeInit(t, turn.initFetched);
    ReachedSame(t, v, d, delta);
    ReachedSearches(v, d, delta);
    assert d + [] == d;
    if !v.injectInit {
      var w := FragmentFromIndex(v, delta > 0.0, liveOffset);
      FindsAll(v, d, delta, liveOffset);
      if Requested(v, delta, liveOffset) {
        FetchReaches(v, w, d, delta);
        RampDownReaches(v, w, d, delta);
      } else {
        MoveReaches(v, w, d, delta);
      }
    }
  }

  lemma {:induction false} ReachedSearches(t: Track, d: seq<real>, delta: real)
    requires Reached(t, d, delta)
    ensures Searchable(t, delta > 0.0) && InOrder(d, delta > 0.0)
  {
  }

  /** Every fragment listed lasts. */
  predicate Lasting(lines: seq<Line>) {
    HasHeader(lines) ==>
      var fs := Timeline.Fragments(lines, 1, false); forall k :: 0 <= k < |fs| ==> fs[k].duration > 0.0
  }

  /** The playlist is replaced at a ramp-down only, and in a rewind only more than one step from the
      beginning. */
  predicate InPlace(t: Track, turn: Turn, delta: real, liveOffset: real)
    requires Searchable(t, delta > 0.0)
  {
    Refreshes(t, turn, delta, liveOffset) && turn.downloaded != [] ==>
      RampsDown(t, turn, delta, liveOffset) && (delta > 0.0 || t.playTarget > -delta) && Lasting(turn.downloaded)
  }

  /** A new index, searched from its end. */
  lemma {:induction false} RestartReaches(t: Track, lines: seq<Line>, d: seq<real>, delta: real)
    requires Reached(t, d, delta) && t.lastIFrameTarget == -1.0 && AllBefore(d, t.playTarget, delta > 0.0)
    requires lines != [] && Playable(lines, delta > 0.0) && Lasting(lines)
    ensures Reached(Refresh(t, lines), d, delta)
  {
    hide Refresh, IndexPlaylist, StrictlyTimed, InOrder, Playable;
    RefreshSearches(t, lines, delta > 0.0);
    IndexIsTimed(t.(playlist := lines), true);
    var r := Refresh(t, lines);
    forall x | x in d ensures x > 0.0 && Behind(r, x, delta) {
      assert Behind(t, x, delta);
    }
  }

  lemma {:induction false} TurnReaches(t: Track, d: seq<real>, turn: Turn, delta: real, liveOffset: real)
    requires Reached(t, d, delta) && Playable(turn.downloaded, delta > 0.0) && InPlace(t, turn, delta, liveOffset)
    ensures Reached(TrickTurn(t, turn, delta, liveOffset), d + Downloads(t, turn, delta, liveOffset), delta)
  {
    hide Reached, Served, RampsDown, Refresh, Playable, Lasting, AllBefore, IndexPlaylist, FragmentFromIndex, Requested,
        ServeInit;
    assert d + [] == d;
    ReachedSearches(t, d, delta);
    if t.fragmentURI != -1 {
      ServedReaches(t, d, turn, delta, liveOffset);
      var u := Served(t, turn, delta, liveOffset);
      ReachedSearches(u, d + Downloads(t, turn, delta, liveOffset), delta);
      RefreshSearches(u, turn.downloaded, delta > 0.0);
      if Refreshes(t, turn, delta, liveOffset) && turn.downloaded != [] {
        RestartReaches(u, turn.downloaded, d, delta);
      }
    }
  }

  ghost predicate AllInPlace(t: Track, turns: seq<Turn>, delta: real, liveOffset: real)
    requires Searchable(t, delta > 0.0) && AllPlayable(turns, delta > 0.0)
    decreases |turns|
  {
    turns == [] ||
    (InPlace(t, turns[0], delta, liveOffset) &&
     AllInPlace(TrickTurn(t, turns[0], delta, liveOffset), turns[1..], delta, liveOffset))
  }

  /** Over a whole run, with whatever sections are served and whatever downloads fail, the segments
      downloaded follow one another in the direction of play, none twice, also from one profile to the
      next, and each is fetched from the URI of its EXTINF in the playlist held. */
  lemma {:induction false} RunDownloadsInOrder(t: Track, d: seq<real>, turns: seq<Turn>, delta: real, liveOffset: real)
    requires Reached(t, d, delta) && AllPlayable(turns, delta > 0.0) && AllInPlace(t, turns, delta, liveOffset)
    ensures InOrder(d + RunDownloads(t, turns, delta, liveOffset), delta > 0.0)
    ensures Reached(TrickRun(t, turns, delta, liveOffset), d + RunDownloads(t, turns, delta, liveOffset), delta)
    ensures AllSourced(t) ==> AllFetchTheirUri(t, turns, delta, liveOffset)
    decreases |turns|
  {
    hide TrickTurn, Downloads, Reached, InOrder, InPlace, AllSourced, AllFetchTheirUri;
    ReachedSearches(t, d, delta);
    if AllSourced(t) {
      RunFetchesItsUris(t, turns, delta, liveOffset);
    }
    if turns == [] {
      assert d + [] == d;
    } else {
      var u, a := TrickTurn(t, turns[0], delta, liveOffset), Downloads(t, turns[0], delta, liveOffset);
      TurnReaches(t, d, turns[0], delta, liveOffset);
      RunDownloadsInOrder(u, d + a, turns[1..], delta, liveOffset);
      assert (d + a) + RunDownloads(u, turns[1..], delta, liveOffset) ==
               d + (a + RunDownloads(u, turns[1..], delta, liveOffset));
    }
  }

  /** Where the playlist is replaced at a ramp-down at most one step from the beginning of a rewind: the next
      node found is past everything downloaded if and only if that all ends after one step. (The segments
      downloaded are listed by the new playlist too.) */
  lemma {:induction false} RestartRepeats(t: Track, d: seq<real>, turn: Turn, delta: real, liveOffset: real)
    requires Spooling(t, delta) && Playable(turn.downloaded, delta > 0.0) && RampsDown(t, turn, delta, liveOffset)
    requires delta < 0.0 && t.playTarget <= -delta && turn.downloaded != []
    requires var u := TrickTurn(t, turn, delta, liveOffset);
             StrictlyTimed(u.index) && forall x :: x in d ==> exists k ::
                                                              0 <= k < |u.index| && u.index[k].completion == x
    ensures var u := TrickTurn(t, turn, delta, liveOffset); var i := CachedScan(u, false);
            u.playTarget == -delta && ((i != -1 ==> AllBefore(d, u.index[i].completion, false)) <==>
                                       AllBefore(d, -delta, false))
  {
    hide FragmentFromIndex, Repeated, Requested, TrickFetch, Served, IndexPlaylist, Refresh, ServeInit;
    ServedKeepsSpooling(t, turn, delta, liveOffset);
    RefreshSearches(Served(t, turn, delta, liveOffset), turn.downloaded, false);
    var u := TrickTurn(t, turn, delta, liveOffset);
    ScanPasses(u, d);
  }

  /** A search from the last node of an index passes over d if and only if d lies beyond the target. */
  lemma {:induction false} ScanPasses(u: Track, d: seq<real>)
    requires Searchable(u, false) && u.currentIdx == -1 && StrictlyTimed(u.index)
    requires forall x :: x in d ==> exists k :: 0 <= k < |u.index| && u.index[k].completion == x
    ensures var i := CachedScan(u, false);
            (i != -1 ==> AllBefore(d, u.index[i].completion, false)) <==> AllBefore(d, u.playTarget, false)
  {
    var i := CachedScan(u, false);
    if x :| x in d && x <= u.playTarget {
      var k :| 0 <= k < |u.index| && u.index[k].completion == x;
      assert k <= i && !Before(x, u.index[i].completion, false);
    }
  }

  /** A rewind by two seconds over a playlist of half a second and one and a half. */
  const SHORT_LINES := [M3U, Inf(0.5), Uri("a"), Inf(1.5), Uri("b"), EndList]

  const SHORT_NODES := [IndexNode(0.5, 1, None), IndexNode(2.0, 3, None)]

  lemma {:induction false} ShortIsIndexed(t: Track, isRefresh: bool)
    requires t.playlist == SHORT_LINES
    ensures var u := IndexPlaylist(t, isRefresh);
            u.index == SHORT_NODES && !u.live && u.duration == 2.0 && u.initFragment.None?
  {
    hide IndexFrom, CompletionTime;
    ShortIsScanned(FlushIndex(t));
  }

  lemma {:induction false} ShortIsScanned(t: Track)
    requires t.playlist == SHORT_LINES && t.index == [] && t.duration == 0.0
    ensures var u := IndexFrom(t, 1, Marks(None, false));
            u.index == SHORT_NODES && !u.live && u.duration == 2.0 && u.initFragment == t.initFragment
  {
    var m := Marks(None, false);
    var t1 := AddSegment(t, 1, 0.5, m);
    var t2 := AddSegment(t1, 3, 1.5, m);
    assert IndexFrom(t, 1, m) == IndexFrom(t1, 2, m) == IndexFrom(t1, 3, m);
    assert IndexFrom(t1, 3, m) == IndexFrom(t2, 4, m) == IndexFrom(t2, 5, m);
    assert IndexFrom(t2, 5, m) == t2.(live := false);
  }

  const REPLACED := Turn(true, RampedDown, false, SHORT_LINES)
  const FETCHES := Turn(true, Fetched, false, [])

  /** The track is in rewind over the short playlist. */
  ghost predicate OnShort(t: Track) {
    t.playlist == SHORT_LINES && t.index == SHORT_NODES && !t.live && t.fragmentURI != -1 && t.initFragment.None? &&
    -1 <= t.currentIdx < 2
  }

  /** The last node is downloaded from targets of 2 s and 2.5 s. */
  lemma {:induction false} LastNodeIsFetched(t: Track)
    requires OnShort(t) && t.currentIdx == -1 && t.lastIFrameTarget == -1.0 && 2.0 <= t.playTarget <= 2.5
    ensures var u := TrickTurn(t, FETCHES, -2.0, 0.0);
            && Downloads(t, FETCHES, -2.0, 0.0) == [2.0] && OnShort(u) && !u.injectInit
            && u.currentIdx == 1 && (t.playTarget == 2.5 ==> u.playTarget == 0.5) && u.lastIFrameTarget == 2.0
  {
    assert UriAfter(t.playlist, 3) == UriAfter(t.playlist, 4) == 4;
  }

  /** The first one fails from half a second, and its replacement starts from 2 s. */
  lemma {:induction false} FirstNodeFails(t: Track)
    requires OnShort(t) && !t.injectInit && t.currentIdx == 1 && t.lastIFrameTarget == 2.0 && t.playTarget == 0.5
    ensures Playable(SHORT_LINES, false) && RampsDown(t, REPLACED, -2.0, 0.0)
    ensures var u := TrickTurn(t, REPLACED, -2.0, 0.0);
            && Downloads(t, REPLACED, -2.0, 0.0) == [] && OnShort(u)
            && u.currentIdx == -1 && u.playTarget == 2.0 && u.lastIFrameTarget == -1.0
  {
    assert LastUpTo(t.index, 0.5, 1) == LastUpTo(t.index, 0.5, 0) == 0;
    assert UriAfter(t.playlist, 1) == UriAfter(t.playlist, 2) == 2;
    hide IndexPlaylist, Find, LastUpTo;
    var v := Served(t, REPLACED, -2.0, 0.0);
    ShortIsIndexed(v.(playlist := SHORT_LINES), true);
    IndexKeeps(v.(playlist := SHORT_LINES), true);
  }

  /** Both turns before and after the ramp-down download the last node. */
  lemma {:induction false} RestartDownloadsTwice(t: Track)
    requires OnShort(t) && t.currentIdx == -1 && t.lastIFrameTarget == -1.0 && t.playTarget == 2.5
    ensures Spooling(t, -2.0) && Reached(t, [], -2.0)
    ensures RunDownloads(t, [FETCHES, REPLACED, FETCHES], -2.0, 0.0) == [2.0, 2.0]
  {
    hide TrickTurn, Downloads;
    LastNodeIsFetched(t);
    var u := TrickTurn(t, FETCHES, -2.0, 0.0);
    FirstNodeFails(u);
    var v := TrickTurn(u, REPLACED, -2.0, 0.0);
    LastNodeIsFetched(v);
    var all := [FETCHES, REPLACED, FETCHES];
    assert all[1..] == [REPLACED, FETCHES] && [REPLACED, FETCHES][1..] == [FETCHES] && [FETCHES][1..] == [];
    assert RunDownloads(v, [FETCHES], -2.0, 0.0) == [2.0];
    assert RunDownloads(u, [REPLACED, FETCHES], -2.0, 0.0) == [2.0];
  }

  /** The turn finds a node other than the one presented last. */
  predicate FindsNew(t: Track, turn: Turn, delta: real, liveOffset: real)
    requires Searchable(t, delta > 0.0)
  {
    var u := ServeInit(t, turn.initFetched);
    t.fragmentURI != -1 && !u.injectInit &&
    var w := FragmentFromIndex(u, delta > 0.0, liveOffset);
    w.fragmentURI != -1 && !Repeated(u, w)
  }

  /** The node found comes with a new initialization section, which has to be served first. */
  predicate WithSection(t: Track, turn: Turn, delta: real, liveOffset: real)
    requires Searchable(t, delta > 0.0)
  {
    FragmentFromIndex(ServeInit(t, turn.initFetched), delta > 0.0, liveOffset).injectInit
  }

  /** The fate of a node found: without a new initialization section it is downloaded if and only if its
      download succeeds. With one it is noted as presented although it is not fetched: it is lost, for it is
      never downloaded in the rest of the run. */
  lemma {:induction false} SectionNodeIsLost(t: Track, d: seq<real>, turn: Turn, turns: seq<Turn>, delta: real,
                                             liveOffset: real)
    requires Reached(t, d, delta) && FindsNew(t, turn, delta, liveOffset)
    requires Playable(turn.downloaded, delta > 0.0) && InPlace(t, turn, delta, liveOffset)
    requires AllPlayable(turns, delta > 0.0) && AllInPlace(TrickTurn(t, turn, delta, liveOffset), turns, delta,
                                                           liveOffset)
    ensures var x := FragmentFromIndex(ServeInit(t, turn.initFetched), delta > 0.0, liveOffset).lastIFrameTarget;
            && x !in d
            && (x in Downloads(t, turn, delta, liveOffset) <==>
                  !WithSection(t, turn, delta, liveOffset) && turn.outcome == Fetched)
            && (WithSection(t, turn, delta, liveOffset) ==>
                  x !in RunDownloads(TrickTurn(t, turn, delta, liveOffset), turns, delta, liveOffset))
  {
    hide FragmentFromIndex, Reached, Repeated, Finds, InOrder, AllBefore, AllBehind, InPlace, TrickTurn, AllInPlace;
    ReachedSearches(t, d, delta);
    NewNode(t, d, turn, delta, liveOffset);
    if WithSection(t, turn, delta, liveOffset) {
      var x := FragmentFromIndex(ServeInit(t, turn.initFetched), delta > 0.0, liveOffset).lastIFrameTarget;
      var u := TrickTurn(t, turn, delta, liveOffset);
      RunDownloadsInOrder(u, d + [x], turns, delta, liveOffset);
      OnceInOrder(d, x, RunDownloads(u, turns, delta, liveOffset), delta > 0.0);
    }
  }

  lemma {:induction false} NewNode(t: Track, d: seq<real>, turn: Turn, delta: real, liveOffset: real)
    requires Reached(t, d, delta) && FindsNew(t, turn, delta, liveOffset)
    requires Playable(turn.downloaded, delta > 0.0) && InPlace(t, turn, delta, liveOffset)
    ensures var x := FragmentFromIndex(ServeInit(t, turn.initFetched), delta > 0.0, liveOffset).lastIFrameTarget;
            && x !in d
            && (WithSection(t, turn, delta, liveOffset) ==>
                Reached(TrickTurn(t, turn, delta, liveOffset), d + [x], delta))
  {
    hide FragmentFromIndex, Reached, Repeated, Finds, InOrder, AllBefore, AllBehind, MoveTarget, Refresh, Playable;
    var v := ServeInit(t, turn.initFetched);
    ReachedSearches(t, d, delta);
    ReachedSame(t, v, d, delta);
    ReachedSearches(v, d, delta);
    var w := FragmentFromIndex(v, delta > 0.0, liveOffset);
    FindsAll(v, d, delta, liveOffset);
    FoundIsNew(v, w, d, delta);
    FetchReaches(v, w, d, delta);
    RefreshSearches(Served(t, turn, delta, liveOffset), turn.downloaded, delta > 0.0);
  }

  lemma {:induction false} FoundIsNew(t: Track, w: Track, d: seq<real>, delta: real)
    requires Finds(t, w, d, delta) && w.fragmentURI != -1 && !Repeated(t, w)
    ensures w.lastIFrameTarget !in d
  {
  }

  lemma {:induction false} OnceInOrder(d: seq<real>, x: real, e: seq<real>, forward: bool)
    requires InOrder(d + [x] + e, forward)
    ensures x !in e
  {
    var all := d + [x] + e;
    assert all[|d|] == x;
    forall i | 0 <= i < |e| ensures e[i] != x {
      assert all[|d| + 1 + i] == e[i] && Before(all[|d|], all[|d| + 1 + i], forward);
    }
  }

  /** Two segments of a second behind one initialization section. */
  const SECTION_LINES := [M3U, Map("s"), Inf(1.0), Uri("a"), Inf(1.0), Uri("b"), EndList]

  const SECTION_NODES := [IndexNode(1.0, 2, Some("s")), IndexNode(2.0, 4, Some("s"))]

  /** A fast forward from the beginning finds the first segment with its section, and downloads the second
      one only. */
  lemma {:induction false} FirstSegmentIsLost(t: Track)
    requires t.playlist == SECTION_LINES && t.index == SECTION_NODES && t.currentIdx == -1 && t.lastIFrameTarget == -1.0
    requires t.playTarget == 0.0 && t.initFragment.None? && !t.injectInit && !t.live && t.fragmentURI != -1
    ensures Reached(t, [], 1.5) && FindsNew(t, FETCHES, 1.5, 0.0) && WithSection(t, FETCHES, 1.5, 0.0)
    ensures RunDownloads(t, [FETCHES, FETCHES], 1.5, 0.0) == [2.0]
  {
    SectionIsFound(t);
    SecondIsFetched(TrickTurn(t, FETCHES, 1.5, 0.0));
    hide TrickTurn, Downloads, FindsNew, WithSection;
    assert [FETCHES, FETCHES][1..] == [FETCHES];
  }

  lemma {:induction false} SectionIsFound(t: Track)
    requires t.playlist == SECTION_LINES && t.index == SECTION_NODES && t.currentIdx == -1 && t.lastIFrameTarget == -1.0
    requires t.playTarget == 0.0 && t.initFragment.None? && !t.injectInit && !t.live && t.fragmentURI != -1
    ensures FindsNew(t, FETCHES, 1.5, 0.0) && WithSection(t, FETCHES, 1.5, 0.0) && Downloads(t, FETCHES, 1.5, 0.0) == []
    ensures var u := TrickTurn(t, FETCHES, 1.5, 0.0);
            && u.playlist == SECTION_LINES && u.index == SECTION_NODES && u.currentIdx == 0 && u.lastIFrameTarget == 1.0
            && u.playTarget == 1.5 && u.initFragment == Some("s") && u.injectInit && !u.live && u.fragmentURI != -1
  {
    assert UriAfter(t.playlist, 2) == UriAfter(t.playlist, 3) == 3;
    hide NoUri;
  }

  lemma {:induction false} SecondIsFetched(u: Track)
    requires u.playlist == SECTION_LINES && u.index == SECTION_NODES && u.currentIdx == 0 && u.lastIFrameTarget == 1.0
    requires u.playTarget == 1.5 && u.initFragment == Some("s") && u.injectInit && !u.live && u.fragmentURI != -1
    ensures RunDownloads(u, [FETCHES], 1.5, 0.0) == [2.0]
  {
    assert UriAfter(u.playlist, 4) == UriAfter(u.playlist, 5) == 5;
    assert FirstFrom(u.index, 1.5, 0) == FirstFrom(u.index, 1.5, 1) == 1;
    assert [FETCHES][1..] == [];
  }

  // ----- Where runs start -------------------------------------------------------------------

  /** A playlist of segments that last, just indexed, is ready for trick play. */
  lemma {:induction false} TrickStarts(t: Track, isRefresh: bool, delta: real)
    requires HasHeader(t.playlist) && delta != 0.0 && t.playTarget >= 0.0 && t.lastIFrameTarget == -1.0
    requires Lasting(t.playlist) && Timeline.Fragments(t.playlist, 1, false) != []
    ensures var u := IndexPlaylist(t, isRefresh);
            && Spooling(u, delta) && Reached(u, [], delta) && AllSourced(u)
            && (t.fragmentURI != -1 ==> Spins(u))
  {
    IndexAllSourced(t, isRefresh);
    IndexIsTimed(t, isRefresh);
    IndexKeeps(t, isRefresh);
    hide IndexPlaylist;
  }

  /** So is a new track on it. */
  lemma {:induction false} NewTrackSpools(lines: seq<Line>, seekPosition: real, delta: real)
    requires HasHeader(lines) && delta != 0.0 && seekPosition >= 0.0
    requires Lasting(lines) && Timeline.Fragments(lines, 1, false) != []
    ensures var u := IndexPlaylist(NewTrack(lines, seekPosition), false);
            && Spooling(u, delta) && Reached(u, [], delta) && AllSourced(u) && Spins(u)
            && u.playTarget == seekPosition && !u.injectInit && !u.eosReached
  {
    hide IndexPlaylist;
    TrickStarts(NewTrack(lines, seekPosition), false, delta);
    IndexKeeps(NewTrack(lines, seekPosition), false);
  }

  /** The index of a playlist of segments that last. */
  lemma {:induction false} IndexIsTimed(t: Track, isRefresh: bool)
    requires Lasting(t.playlist)
    ensures var index := IndexPlaylist(t, isRefresh).index;
            StrictlyTimed(index) && (HasHeader(t.playlist) ==> |index| == |Timeline.Fragments(t.playlist, 1, false)|)
  {
    hide IndexPlaylist;
    IndexKeeps(t, isRefresh);
    if HasHeader(t.playlist) {
      Timeline.IndexPlaylistDescribes(t, isRefresh);
      var u, fs := IndexPlaylist(t, isRefresh), Timeline.Fragments(t.playlist, 1, false);
      forall k, m | 0 <= k < m < |u.index| ensures u.index[k].completion < u.index[m].completion {
        TotalGrows(fs, k + 1, m + 1);
      }
      forall k | 0 <= k < |u.index| ensures u.index[k].completion > 0.0 {
        TotalGrows(fs, 0, k + 1);
      }
    }
  }

  lemma {:induction false} TotalGrows(fs: seq<Timeline.Fragment>, m: nat, n: nat)
    requires m < n <= |fs| && forall k :: 0 <= k < |fs| ==> fs[k].duration > 0.0
    ensures Timeline.Total(fs, m) < Timeline.Total(fs, n)
    decreases n
  {
    if m < n - 1 {
      TotalGrows(fs, m, n - 1);
    }
  }

  /** The index that a flush and a rebuild leave does not depend on the one before, and the next search finds
      what a scan of the whole index would find, wherever the search stood. */
  lemma {:induction false} FlushRestartsSearch(t: Track, isRefresh: bool, forward: bool)
    ensures var u, v := IndexPlaylist(t, isRefresh), IndexPlaylist(t.(index := [], discontinuities := []), false);
            && u.index == v.index && u.discontinuities == v.discontinuities && u.duration == v.duration &&
                 u.live == v.live
            && (Searchable(u, forward) ==> CachedScan(u, forward) == FullScan(u.index, u.playTarget, forward))
  {
    hide IndexFrom, CompletionTime, CachedScan, FullScan;
    IndexKeeps(t, isRefresh);
    var u := IndexPlaylist(t, isRefresh);
    assert FlushIndex(t) == FlushIndex(t.(index := [], discontinuities := []));
    if Searchable(u, forward) {
      CachedScanIsFullScan(u, forward);
    }
  }
}
