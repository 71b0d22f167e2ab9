/** The track engine as the class it is: every method updates the fields step by step and is
    proved against the corresponding function of TrackModel, Timeline, TrickPlay or TrackSync. */
module TrackStates {
  import opened Common
  import opened Playlist
  import opened TrackModel
  import Timeline
  import TrickPlay
  import TrackSync
  import LiveRun

  class TrackState {
    var playlist: seq<Line>
    var live: bool
    var fragmentURI: int
    var playlistPosition: real
    var playTarget: real
    var playTargetOffset: real
    var fragmentDuration: real
    var nextMediaSequenceNumber: int
    var initFragment: Option<string>
    var injectInit: bool
    var reachedEndList: bool
    var eosReached: bool
    var index: seq<IndexNode>
    var indexFirst: int
    var discontinuities: seq<DiscontinuityNode>
    var duration: real
    var culledSeconds: real
    var currentIdx: int
    var lastIFrameTarget: real

    function State(): Track
      reads this
    {
      Track(playlist, live, fragmentURI, playlistPosition, playTarget, playTargetOffset, fragmentDuration,
            nextMediaSequenceNumber, initFragment, injectInit, reachedEndList, eosReached, index, indexFirst,
            discontinuities, duration, culledSeconds, currentIdx, lastIFrameTarget)
    }

    /** A track before its playlist is walked, seeking to the given position. */
    constructor (lines: seq<Line>, seekPosition: real)
      requires |lines| > 0
      ensures State() == NewTrack(lines, seekPosition) && State().WellFormed()
    {
      playlist, live := lines, true;
      fragmentURI, playlistPosition, playTarget, playTargetOffset := 0, -1.0, seekPosition, 0.0;
      fragmentDuration, nextMediaSequenceNumber := 0.0, 0;
      initFragment, injectInit, reachedEndList, eosReached := None, false, false, false;
      index, indexFirst, discontinuities, duration, culledSeconds := [], 0, [], 0.0, 0.0;
      currentIdx, lastIFrameTarget := -1, -1.0;
    }

    // ----- Normal speed -------------------------------------------------------------------

    method ReadLine(l: Line)
      requires !l.Uri?
      modifies `playlistPosition, `fragmentDuration, `nextMediaSequenceNumber, `initFragment, `injectInit,
          `reachedEndList
      ensures State() == ReadTag(l, old(State()))
    {
      match l {
        case Inf(d) =>
          playlistPosition := if playlistPosition != -1.0 then playlistPosition + fragmentDuration else 0.0;
          fragmentDuration := d;
        case MediaSequence(n) => nextMediaSequenceNumber := n;
        case Map(m) =>
          if initFragment != Some(m) {
            initFragment := Some(m);
            injectInit := true;
          }
        case EndList => reachedEndList := true;
        case _ =>
      }
    }

    /** A URI line: the segment is counted, and it may be the one to play. */
    method CountSegment() returns (reached: bool)
      modifies `nextMediaSequenceNumber
      ensures State() == CountUri(old(State())) && reached == Reached(State())
    {
      nextMediaSequenceNumber := nextMediaSequenceNumber + 1;
      reached := playlistPosition + fragmentDuration > playTarget || playTarget - playlistPosition < THRESHOLD;
    }

    /** The loop of GetNextFragmentUriFromPlaylist. */
    method WalkFrom(from: nat) returns (uri: int)
      requires from <= |playlist|
      modifies `playlistPosition, `fragmentDuration, `nextMediaSequenceNumber, `initFragment, `injectInit,
          `reachedEndList
      ensures State().(fragmentURI := uri) == Scan(old(State()), from)
    {
      var ptr := from;
      ghost var goal := Scan(State(), ptr);
      hide Scan, ReadTag, CountUri, Reached;
      while ptr < |playlist|
        invariant 0 <= ptr <= |playlist|
        invariant Scan(State(), ptr) == goal
      {
        if playlist[ptr].Uri? {
          ScanUri(State(), ptr);
          var reached := CountSegment();
          if reached {
            return ptr;
          }
        } else {
          ScanTag(State(), ptr);
          ReadLine(playlist[ptr]);
        }
        ptr := ptr + 1;
      }
      ScanPastEnd(State());
      return -1;
    }

    method GetNextFragmentUriFromPlaylist() returns (uri: int)
      requires State().WellFormed()
      modifies this
      ensures State().(fragmentURI := uri) == NextFragment(old(State())) && fragmentURI == old(fragmentURI)
    {
      hide Scan;
      if playTarget < 0.0 {
        playTarget := 0.0;
      }
      if playlistPosition == playTarget || fragmentURI == -1 {
        return fragmentURI;
      }
      uri := WalkFrom(if playlistPosition != -1.0 then fragmentURI + 1 else fragmentURI);
    }

    method FindMediaForSequenceNumber() returns (uri: int)
      modifies `fragmentDuration, `initFragment, `nextMediaSequenceNumber
      ensures State().(fragmentURI := uri) == Find(old(State()), 0, 0, None)
    {
      var ptr, seqNo, mediaSequenceNumber := 0, 0, nextMediaSequenceNumber - 1;
      var init: Option<string> := None;
      while ptr < |playlist|
        invariant 0 <= ptr <= |playlist| && mediaSequenceNumber == nextMediaSequenceNumber - 1
        invariant Find(old(State()), 0, 0, None) == Find(State(), ptr, seqNo, init)
      {
        match playlist[ptr] {
          case Inf(d) => fragmentDuration := d;
          case MediaSequence(n) => seqNo := n;
          case Map(m) => init := Some(m);
          case Uri(_) =>
            if seqNo >= mediaSequenceNumber {
              if init.Some? && initFragment.None? {
                initFragment := init;
              }
              if seqNo != mediaSequenceNumber {
                nextMediaSequenceNumber := seqNo + 1;
              }
              return ptr;
            }
            seqNo := seqNo + 1;
          case _ =>
        }
        ptr := ptr + 1;
      }
      return -1;
    }

    /** The index and the period table are released. */
    method ReleaseNodes()
      modifies `index, `indexFirst, `discontinuities
      ensures State() == old(State()).(index := [], indexFirst := 0, discontinuities := [])
    {
      index, indexFirst, discontinuities := [], 0, [];
    }

    method Flush()
      modifies `index, `indexFirst, `discontinuities, `currentIdx, `initFragment, `duration
      ensures State() == FlushIndex(old(State()))
    {
      ReleaseNodes();
      currentIdx, initFragment, duration := -1, None, 0.0;
    }

    method IndexOneLine(ptr: nat, marks: Marks) returns (marks': Marks)
      requires ptr < |playlist|
      modifies `index, `indexFirst, `discontinuities, `duration, `live
      ensures (State(), marks') == IndexLine(old(State()), ptr, marks)
    {
      marks' := marks;
      match playlist[ptr] {
        case Inf(d) =>
          if marks.discontinuity {
            discontinuities := discontinuities + [DiscontinuityNode(|index|, duration, d)];
            marks' := marks.(discontinuity := false);
          }
          duration := duration + d;
          index := index + [IndexNode(duration, ptr, marks.init)];
        case MediaSequence(n) => indexFirst := n;
        case PlaylistType(vod) => live := !vod;
        case Map(m) => marks' := marks.(init := Some(m));
        case Discontinuity => marks' := marks.(discontinuity := true);
        case EndList => live := false;
        case _ =>
      }
    }

    method BuildIndex()
      requires playlist != []
      modifies `index, `indexFirst, `discontinuities, `duration, `live
      ensures State() == IndexFrom(old(State()), 1, Marks(None, false))
    {
      var ptr, marks := 1, Marks(None, false);
      ghost var goal := IndexFrom(State(), ptr, marks);
      while ptr < |playlist|
        invariant 1 <= ptr <= |playlist|
        invariant IndexFrom(State(), ptr, marks) == goal
      {
        hide IndexFrom, IndexLine;
        IndexStep(State(), ptr, marks);
        marks := IndexOneLine(ptr, marks);
        ptr := ptr + 1;
      }
    }

    method IndexPlaylist(isRefresh: bool)
      modifies this
      ensures State() == TrackModel.IndexPlaylist(old(State()), isRefresh)
    {
      var before := CompletionTime(State(), nextMediaSequenceNumber - 1);
      Flush();
      if |playlist| == 0 || playlist[0] != M3U {
        return;
      }
      BuildIndex();
      if isRefresh {
        var culled := before - CompletionTime(State(), nextMediaSequenceNumber - 1);
        if culled > 0.0 {
          culledSeconds := culledSeconds + culled;
        }
      }
    }

    /** downloaded is empty when the download failed. */
    method RefreshPlaylist(downloaded: seq<Line>)
      modifies this
      ensures State() == Refresh(old(State()), downloaded)
    {
      hide TrackModel.IndexPlaylist, Find;
      var held := playlist;
      playlist := downloaded;
      if |playlist| > 0 {
        IndexPlaylist(true);
        if duration > 0.0 {
          if live {
            fragmentURI := FindMediaForSequenceNumber();
          } else {
            fragmentURI := 0;
            playlistPosition := -1.0;
          }
        }
      } else {
        playlist := held;
      }
    }

    method ABRProfileChanged()
      modifies `injectInit
      ensures State() == LiveRun.Apply(old(State()), LiveRun.ProfileChanged)
    {
      injectInit := true;
    }

    /** The next segment is selected, and the target moved past it unless an initialization section is
        pending. */
    method SelectFragment()
      requires State().WellFormed()
      modifies this
      ensures State() == TrackModel.SelectFragment(old(State()))
    {
      hide NextFragment;
      fragmentURI := GetNextFragmentUriFromPlaylist();
      if fragmentURI != -1 {
        if !injectInit {
          playTarget := playlistPosition + fragmentDuration;
        }
      } else if (!live || reachedEndList) && playlistPosition != -1.0 {
        eosReached := true;
      }
    }

    /** How a download ended; step is what the target goes back by for a lower profile. */
    method EndDownload(step: real, outcome: Outcome)
      modifies `lastIFrameTarget, `playTarget, `injectInit
      ensures State() == AfterDownload(old(State()), step, outcome)
    {
      if outcome != Fetched {
        lastIFrameTarget := -1.0;
        if outcome == RampedDown {
          playTarget := playTarget - step;
          injectInit := true;
        }
      }
    }

    /** FetchFragment at normal speed; outcome says how the download, if there is one, ends. */
    method FetchFragment(outcome: Outcome)
      requires State().WellFormed()
      modifies this
      ensures State() == TrackModel.FetchFragment(old(State()), outcome)
    {
      hide TrackModel.SelectFragment, AfterDownload;
      SelectFragment();
      if fragmentURI != -1 && !injectInit {
        EndDownload(fragmentDuration, outcome);
      }
    }

    /** One turn of RunFetchLoop; initFetched says whether a pending initialization section arrives. */
    method FetchLoopTurn(initFetched: bool, outcome: Outcome)
      requires State().WellFormed() && fragmentURI != -1
      modifies this
      ensures State() == LiveRun.Apply(old(State()), LiveRun.Turn(initFetched, outcome))
    {
      hide TrackModel.FetchFragment;
      var skipFetchFragment := ServePendingInit(initFetched);
      if !skipFetchFragment {
        FetchFragment(outcome);
      }
    }

    /** A pending initialization section goes first; the fetch is skipped while it does not arrive. */
    method ServePendingInit(initFetched: bool) returns (skipFetchFragment: bool)
      modifies `injectInit
      ensures State() == ServeInit(old(State()), initFetched) && skipFetchFragment == injectInit
    {
      skipFetchFragment := false;
      if injectInit {
        if initFragment.Some? {
          if initFetched {
            injectInit := false;
          }
          skipFetchFragment := injectInit;
        } else {
          injectInit := false;
        }
      }
    }

    // ----- Trick play -----------------------------------------------------------------------

    method SearchForward() returns (idx: nat)
      requires TrickPlay.Searchable(State(), true)
      ensures idx == TrickPlay.FirstFrom(index, playTarget, TrickPlay.StartIdx(State(), true))
    {
      idx := if currentIdx == -1 then 0 else currentIdx;
      while idx < |index| && index[idx].completion < playTarget
        invariant idx <= |index|
        invariant TrickPlay.FirstFrom(index, playTarget, TrickPlay.StartIdx(State(), true)) ==
                    TrickPlay.FirstFrom(index, playTarget, idx)
      {
        idx := idx + 1;
      }
    }

    method SearchBackward() returns (idx: int)
      requires TrickPlay.Searchable(State(), false)
      ensures idx == TrickPlay.LastUpTo(index, playTarget, TrickPlay.StartIdx(State(), false))
    {
      idx := if currentIdx == -1 then |index| - 1 else currentIdx;
      while idx >= 0 && index[idx].completion > playTarget
        invariant -1 <= idx < |index|
        invariant TrickPlay.LastUpTo(index, playTarget, TrickPlay.StartIdx(State(), false)) ==
                    TrickPlay.LastUpTo(index, playTarget, idx)
      {
        idx := idx - 1;
      }
    }

    /** An initialization section other than the last one has to be injected. */
    method NoteInit(init: Option<string>)
      modifies `initFragment, `injectInit
      ensures var news := init.Some? && old(initFragment) != init;
              initFragment == (if news then init else old(initFragment)) && injectInit == (old(injectInit) || news)
    {
      if init.Some? && initFragment != init {
        initFragment := init;
        injectInit := true;
      }
    }

    method PresentNode(idx: nat) returns (uri: int, bSegmentRepeated: bool)
      requires idx < |index|
      modifies `initFragment, `injectInit, `currentIdx, `fragmentDuration, `lastIFrameTarget
      ensures State().(fragmentURI := uri) == TrickPlay.Present(old(State()), idx)
      ensures bSegmentRepeated <==> old(lastIFrameTarget) != -1.0 && lastIFrameTarget == old(lastIFrameTarget)
    {
      hide TrickPlay.UriAfter, TrickPlay.FragmentLength;
      var node := index[idx];
      bSegmentRepeated := lastIFrameTarget != -1.0 && node.completion == lastIFrameTarget;
      uri := TrickPlay.UriAfter(playlist, node.info);
      var length := TrickPlay.FragmentLength(index, idx);
      NoteInit(node.init);
      currentIdx, fragmentDuration, lastIFrameTarget := idx, length, node.completion;
    }

    /** The search of GetFragmentUriFromIndex; -1 if no node fits. */
    method SearchIndex(forward: bool) returns (idx: int)
      requires TrickPlay.Searchable(State(), forward)
      modifies `currentIdx
      ensures idx == TrickPlay.CachedScan(old(State()), forward)
      ensures currentIdx == old(TrickPlay.StartIdx(State(), forward))
    {
      if forward {
        idx := SearchForward();
        idx := if idx == |index| then -1 else idx;
        currentIdx := if currentIdx == -1 then 0 else currentIdx;
      } else {
        idx := SearchBackward();
        currentIdx := if currentIdx == -1 then |index| - 1 else currentIdx;
      }
    }

    method GetFragmentUriFromIndex(forward: bool, liveOffset: real) returns (uri: int, bSegmentRepeated: bool)
      requires TrickPlay.Searchable(State(), forward)
      modifies `initFragment, `injectInit, `currentIdx, `fragmentDuration, `lastIFrameTarget
      ensures State().(fragmentURI := uri) == TrickPlay.FragmentFromIndex(old(State()), forward, liveOffset)
      ensures bSegmentRepeated && uri != -1 <==> TrickPlay.Repeated(old(State()), State().(fragmentURI := uri))
    {
      hide TrickPlay.CachedScan, TrickPlay.UriAfter, TrickPlay.FragmentLength;
      uri, bSegmentRepeated := -1, false;
      if forward && live && playTarget > index[|index| - 1].completion - liveOffset {
        return;
      }
      var idx := SearchIndex(forward);
      if idx != -1 {
        uri, bSegmentRepeated := PresentNode(idx);
      }
    }

    /** FetchFragment in trick play; outcome says how the download, if there is one, ends. */
    method FetchTrickPlayFragment(delta: real, liveOffset: real, outcome: Outcome) returns (rampedDown: bool)
      requires TrickPlay.Searchable(State(), delta > 0.0)
      modifies this
      ensures State() == TrickPlay.TrickFetch(old(State()), delta, liveOffset, outcome)
      ensures rampedDown <==> TrickPlay.Requested(old(State()), delta, liveOffset) && outcome == RampedDown
    {
      hide TrickPlay.FragmentFromIndex, TrickPlay.Repeated, TrickPlay.MoveTarget, AfterDownload;
      var repeated;
      rampedDown := false;
      fragmentURI, repeated := GetFragmentUriFromIndex(delta > 0.0, liveOffset);
      MoveTarget(delta);
      if !injectInit && fragmentURI != -1 && !repeated {
        EndDownload(delta, outcome);
        rampedDown := outcome == RampedDown;
      }
    }

    /** One turn of RunFetchLoop in trick play. */
    method TrickPlayTurn(initFetched: bool, outcome: Outcome, refreshes: bool, downloaded: seq<Line>, delta: real,
                         liveOffset: real)
      requires TrickPlay.Searchable(State(), delta > 0.0) && fragmentURI != -1
      requires TrickPlay.Playable(downloaded, delta > 0.0)
      modifies this
      ensures State() == TrickPlay.TrickTurn(old(State()), TrickPlay.Turn(initFetched, outcome, refreshes, downloaded),
                                             delta, liveOffset)
    {
      hide TrickPlay.TrickFetch, TrickPlay.Requested, Refresh, TrickPlay.Playable;
      var refreshPlaylist := false;
      var skipFetchFragment := ServePendingInit(initFetched);
      if !skipFetchFragment {
        refreshPlaylist := FetchTrickPlayFragment(delta, liveOffset, outcome);
      }
      if refreshes && (live || skipFetchFragment) {
        refreshPlaylist := true;
      }
      if refreshPlaylist {
        RefreshPlaylist(downloaded);
      }
    }

    method MoveTarget(delta: real)
      modifies `playTarget, `eosReached
      ensures State() == TrickPlay.MoveTarget(old(State()), delta)
    {
      if delta >= 0.0 {
        if fragmentURI == -1 {
          eosReached := true;
        }
        playTarget := playTarget + delta;
      } else if fragmentURI == -1 || playTarget == 0.0 {
        eosReached := true;
      } else if playTarget > -delta {
        playTarget := playTarget + delta;
      } else {
        playTarget := 0.0;
      }
    }

    // ----- Periods ----------------------------------------------------------------------------

    method GetNextFragmentPeriodInfo() returns (periodIdx: int, offsetFromPeriodStart: real, fragmentIdx: int)
      ensures Timeline.PeriodInfo(periodIdx, offsetFromPeriodStart, fragmentIdx) == Timeline.PeriodInfoAt(State())
    {
      periodIdx, fragmentIdx, offsetFromPeriodStart := -1, -1, 0.0;
      var idx, previous := 0, 0.0;
      while idx < |index| && index[idx].completion <= playTarget
        invariant 0 <= idx <= |index|
        invariant idx > 0 ==> previous == index[idx - 1].completion
        invariant Timeline.EndingAfter(index, playTarget, 0) == Timeline.EndingAfter(index, playTarget, idx)
      {
        previous := index[idx].completion;
        idx := idx + 1;
      }
      if 0 < idx < |index| {
        var i, periodStart := 0, 0.0;
        while i < |discontinuities| && discontinuities[i].fragmentIdx <= idx
          invariant 0 <= i <= |discontinuities| && periodIdx == i - 1
          invariant periodStart == if i == 0 then 0.0 else discontinuities[i - 1].position
          invariant Timeline.PeriodsUpTo(discontinuities, idx, 0) == Timeline.PeriodsUpTo(discontinuities, idx, i)
        {
          periodIdx := i;
          periodStart := discontinuities[i].position;
          i := i + 1;
        }
        if i < |discontinuities| {
          fragmentIdx := discontinuities[i].fragmentIdx;
        }
        offsetFromPeriodStart := previous - periodStart;
      }
    }

    method GetPeriodStartPosition(periodIdx: int) returns (offset: real)
      ensures offset == Timeline.PeriodStart(discontinuities, periodIdx)
    {
      offset := 0.0;
      if periodIdx < |discontinuities| {
        for i := 0 to |discontinuities|
          invariant offset == 0.0 && (periodIdx < 0 || i <= periodIdx)
        {
          if i == periodIdx {
            offset := discontinuities[i].position;
            break;
          }
        }
      }
    }

    // ----- Synchronization --------------------------------------------------------------------

    method AlignToSegment()
      requires State().WellFormed()
      modifies this
      ensures State() == TrackSync.Align(old(State()))
    {
      fragmentURI := GetNextFragmentUriFromPlaylist();
      playTarget := playlistPosition;
    }

    method PassOver()
      requires State().WellFormed()
      modifies this
      ensures State() == TrackSync.PassSegment(old(State()))
    {
      hide NextFragment;
      playTarget := playTarget + fragmentDuration;
      playTargetOffset := playTargetOffset + fragmentDuration;
      if fragmentURI != -1 {
        fragmentURI := GetNextFragmentUriFromPlaylist();
      }
    }

    method CatchUp(lag: nat)
      requires State().WellFormed()
      modifies this
      ensures State() == TrackSync.CatchUp(old(State()), lag)
    {
      var diff := lag;
      ghost var goal := TrackSync.CatchUp(State(), diff);
      hide TrackSync.PassSegment;
      while diff > 0
        invariant 0 <= diff && State().WellFormed()
        invariant TrackSync.CatchUp(State(), diff) == goal
      {
        PassOver();
        diff := diff - 1;
      }
    }
  }

  /** SyncTracks by media sequence number; synced is false where the caller goes on by start time. */
  method SyncTracks(audio: TrackState, video: TrackState, subtitle: TrackState, subtitleEnabled: bool,
                    startTimeAvailable: bool, useStartTime: bool) returns (synced: bool)
    requires audio != video && video != subtitle && audio != subtitle
    requires audio.State().WellFormed() && video.State().WellFormed() && subtitle.State().WellFormed()
    modifies audio, video, subtitle
    ensures TrackSync.Synced(audio.State(), video.State(), subtitle.State(), synced) ==
            TrackSync.SyncTracks(old(audio.State()), old(video.State()), old(subtitle.State()), subtitleEnabled,
                                 startTimeAvailable, useStartTime)
  {
    hide TrackSync.Align, TrackSync.CatchUp;
    audio.AlignToSegment();
    video.AlignToSegment();
    if subtitleEnabled {
      subtitle.AlignToSegment();
    }
    synced := false;
    var audioNumber := audio.nextMediaSequenceNumber - 1;
    var videoNumber := video.nextMediaSequenceNumber - 1;
    var subtitleNumber := subtitle.nextMediaSequenceNumber - 1;
    if !startTimeAvailable || !useStartTime {
      if audioNumber > videoNumber {
        var diff := audioNumber - videoNumber;
        if !(startTimeAvailable && diff > TrackSync.MAX_SEQ_NUMBER_DIFF_FOR_SEQ_NUM_BASED_SYNC) &&
            diff <= TrackSync.MAX_SEQ_NUMBER_LAG_COUNT {
          video.CatchUp(diff);
          synced := true;
        }
      } else if videoNumber > audioNumber {
        var diff := videoNumber - audioNumber;
        if !(startTimeAvailable && diff > TrackSync.MAX_SEQ_NUMBER_DIFF_FOR_SEQ_NUM_BASED_SYNC) &&
            diff <= TrackSync.MAX_SEQ_NUMBER_LAG_COUNT {
          audio.CatchUp(diff);
          synced := true;
        }
      } else {
        synced := true;
      }
      if subtitleEnabled && synced {
        var subtitleDiff := audioNumber - subtitleNumber;
        if 0 < subtitleDiff <= TrackSync.MAX_SEQ_NUMBER_LAG_COUNT {
          subtitle.CatchUp(subtitleDiff);
        }
      }
    }
  }
}
