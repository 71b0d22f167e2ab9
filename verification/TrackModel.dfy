/** The state of one HLS media track and what each operation of the track engine does to it
    (TrackState in fragmentcollector_hls.cpp), as functions on values. */
module TrackModel {
  import opened Common
  import opened Playlist

  /** PLAYLIST_TIME_DIFF_THRESHOLD_SECONDS: the single-precision literal 0.1f. */
  const THRESHOLD: real := 13421773.0 / 134217728.0

  datatype IndexNode = IndexNode(completion: real, info: nat, init: Option<string>)

  datatype DiscontinuityNode = DiscontinuityNode(fragmentIdx: nat, position: real, fragmentDuration: real)

  /** NULL pointers into the playlist are -1; playlistPosition is -1.0 while undefined. */
  datatype Track = Track(
    playlist: seq<Line>, live: bool,
    fragmentURI: int, playlistPosition: real, playTarget: real, playTargetOffset: real,
    fragmentDuration: real, nextMediaSequenceNumber: int,
    initFragment: Option<string>, injectInit: bool, reachedEndList: bool, eosReached: bool,
    index: seq<IndexNode>, indexFirst: int, discontinuities: seq<DiscontinuityNode>, duration: real,
    culledSeconds: real, currentIdx: int, lastIFrameTarget: real)
  {
    /** fragmentURI is NULL or points into the playlist held. */
    predicate WellFormed() {
      -1 <= fragmentURI < |playlist|
    }
  }

  /** A track about to walk the given playlist from its start, seeking to a position. */
  function NewTrack(lines: seq<Line>, seekPosition: real): Track {
    Track(lines, true, 0, -1.0, seekPosition, 0.0, 0.0, 0, None, false, false, false, [], 0, [], 0.0, 0.0, -1, -1.0)
  }

  // ----- Walking the playlist: GetNextFragmentUriFromPlaylist ------------------------------

  /** What one line other than a URI does to the cursor. */
  function ReadTag(l: Line, t: Track): Track {
    match l
    case Inf(d) =>
      t.(playlistPosition := if t.playlistPosition != -1.0 then t.playlistPosition + t.fragmentDuration else 0.0,
         fragmentDuration := d)
    case MediaSequence(n) => t.(nextMediaSequenceNumber := n)
    case Map(m) => if t.initFragment == Some(m) then t else t.(initFragment := Some(m), injectInit := true)
    case EndList => t.(reachedEndList := true)
    case _ => t
  }

  /** The segment at the cursor is the one to play next. */
  predicate Reached(t: Track) {
    t.playlistPosition + t.fragmentDuration > t.playTarget || t.playTarget - t.playlistPosition < THRESHOLD
  }

  function CountUri(t: Track): Track {
    t.(nextMediaSequenceNumber := t.nextMediaSequenceNumber + 1)
  }

  /** Reads lines from i on until a URI is reached or the playlist ends. */
  function Scan(t: Track, i: nat): (r: Track)
    requires i <= |t.playlist|
    ensures r.playlist == t.playlist && -1 <= r.fragmentURI < |t.playlist|
    decreases |t.playlist| - i
  {
    if i == |t.playlist| then t.(fragmentURI := -1)
    else match t.playlist[i]
      case Uri(_) =>
        var u := CountUri(t);
        if Reached(u) then u.(fragmentURI := i) else Scan(u, i + 1)
      case l => Scan(ReadTag(l, t), i + 1)
  }

  lemma {:induction false} ScanTag(t: Track, i: nat)
    requires i < |t.playlist| && !t.playlist[i].Uri?
    ensures Scan(t, i) == Scan(ReadTag(t.playlist[i], t), i + 1)
  {
  }

  lemma {:induction false} ScanUri(t: Track, i: nat)
    requires i < |t.playlist| && t.playlist[i].Uri?
    ensures Scan(t, i) == if Reached(CountUri(t)) then CountUri(t).(fragmentURI := i) else Scan(CountUri(t), i + 1)
  {
  }

  lemma {:induction false} ScanPastEnd(t: Track)
    ensures Scan(t, |t.playlist|) == t.(fragmentURI := -1)
  {
  }

  function ClampTarget(t: Track): Track {
    if t.playTarget < 0.0 then t.(playTarget := 0.0) else t
  }

  /** The line where the walk resumes: past the segment already presented, if any. */
  function Resume(t: Track): nat
    requires t.fragmentURI >= 0
  {
    if t.playlistPosition != -1.0 then t.fragmentURI + 1 else t.fragmentURI
  }

  /** Every caller stores the returned pointer in fragmentURI, so the function does it here. */
  function NextFragment(t: Track): (r: Track)
    requires t.WellFormed()
    ensures r.WellFormed() && r.playlist == t.playlist
  {
    var u := ClampTarget(t);
    if u.playlistPosition == u.playTarget || u.fragmentURI == -1 then u else Scan(u, Resume(u))
  }

  // ----- Finding the cursor again after a live refresh: FindMediaForSequenceNumber ---------

  function Found(t: Track, i: nat, seqNo: int, init: Option<string>): Track {
    t.(fragmentURI := i,
       initFragment := if t.initFragment.None? then init else t.initFragment,
       nextMediaSequenceNumber :=
         if seqNo != t.nextMediaSequenceNumber - 1 then seqNo + 1 else t.nextMediaSequenceNumber)
  }

  function Find(t: Track, i: nat, seqNo: int, init: Option<string>): (r: Track)
    requires i <= |t.playlist|
    ensures r.playlist == t.playlist && r.live == t.live && -1 <= r.fragmentURI < |t.playlist|
    decreases |t.playlist| - i
  {
    if i == |t.playlist| then t.(fragmentURI := -1)
    else match t.playlist[i]
      case Inf(d) => Find(t.(fragmentDuration := d), i + 1, seqNo, init)
      case MediaSequence(n) => Find(t, i + 1, n, init)
      case Map(m) => Find(t, i + 1, seqNo, Some(m))
      case Uri(_) =>
        if seqNo >= t.nextMediaSequenceNumber - 1 then Found(t, i, seqNo, init) else Find(t, i + 1, seqNo + 1, init)
      case _ => Find(t, i + 1, seqNo, init)
  }

  /** The find moves the cursor only. */
  lemma {:induction false} FindKeeps(t: Track, i: nat, seqNo: int, init: Option<string>)
    requires i <= |t.playlist|
    ensures var r := Find(t, i, seqNo, init);
            r == t.(fragmentURI := r.fragmentURI, fragmentDuration := r.fragmentDuration,
                    initFragment := r.initFragment, nextMediaSequenceNumber := r.nextMediaSequenceNumber)
    decreases |t.playlist| - i
  {
    if i < |t.playlist| {
      match t.playlist[i]
      case Inf(d) => FindKeeps(t.(fragmentDuration := d), i + 1, seqNo, init);
      case MediaSequence(n) => FindKeeps(t, i + 1, n, init);
      case Map(m) => FindKeeps(t, i + 1, seqNo, Some(m));
      case Uri(_) =>
        if seqNo < t.nextMediaSequenceNumber - 1 {
          FindKeeps(t, i + 1, seqNo + 1, init);
        }
      case _ => FindKeeps(t, i + 1, seqNo, init);
    }
  }

  // ----- Indexing: IndexPlaylist, FlushIndex, GetCompletionTimeForFragment ------------------

  function CompletionTime(t: Track, mediaSequenceNumber: int): real {
    var idx := mediaSequenceNumber - t.indexFirst;
    if |t.index| == 0 || idx < 0 then 0.0
    else if idx >= |t.index| then t.index[|t.index| - 1].completion
    else t.index[idx].completion
  }

  function FlushIndex(t: Track): Track {
    t.(index := [], indexFirst := 0, discontinuities := [], currentIdx := -1, initFragment := None, duration := 0.0)
  }

  /** What the indexer carries from tag to tag: the latest EXT-X-MAP and a pending discontinuity. */
  datatype Marks = Marks(init: Option<string>, discontinuity: bool)

  function ReadMark(l: Line, marks: Marks): Marks {
    match l
    case Map(m) => marks.(init := Some(m))
    case Discontinuity => marks.(discontinuity := true)
    case _ => marks
  }

  function LiveAfter(l: Line, live: bool): bool {
    match l
    case PlaylistType(vod) => !vod
    case EndList => false
    case _ => live
  }

  /** Adds the lines from i on to the index.  The running total is kept in duration. */
  function IndexFrom(t: Track, i: nat, marks: Marks): (r: Track)
    requires i <= |t.playlist|
    ensures r.playlist == t.playlist && r.fragmentURI == t.fragmentURI
    decreases |t.playlist| - i
  {
    if i == |t.playlist| then t
    else match t.playlist[i]
      case Inf(d) => IndexFrom(AddSegment(t, i, d, marks), i + 1, marks.(discontinuity := false))
      case MediaSequence(n) => IndexFrom(t.(indexFirst := n), i + 1, marks)
      case l => IndexFrom(t.(live := LiveAfter(l, t.live)), i + 1, ReadMark(l, marks))
  }

  function AddSegment(t: Track, i: nat, d: real, marks: Marks): Track {
    var node := DiscontinuityNode(|t.index|, t.duration, d);
    t.(discontinuities := if marks.discontinuity then t.discontinuities + [node] else t.discontinuities,
       index := t.index + [IndexNode(t.duration + d, i, marks.init)],
       duration := t.duration + d)
  }

  predicate HasHeader(lines: seq<Line>) {
    |lines| > 0 && lines[0] == M3U
  }

  /** Rebuilds the index; on a refresh, what the last played segment moved by is culled time. */
  function IndexPlaylist(t: Track, isRefresh: bool): (r: Track)
    ensures r.playlist == t.playlist && r.fragmentURI == t.fragmentURI
  {
    var flushed := FlushIndex(t);
    if !HasHeader(t.playlist) then flushed
    else
      var r := IndexFrom(flushed, 1, Marks(None, false));
      var culled := CompletionTime(t, t.nextMediaSequenceNumber - 1) - CompletionTime(r, t.nextMediaSequenceNumber - 1);
      if isRefresh && culled > 0.0 then r.(culledSeconds := r.culledSeconds + culled) else r
  }

  /** What the indexer makes of line i. */
  function IndexLine(t: Track, i: nat, marks: Marks): (Track, Marks)
    requires i < |t.playlist|
  {
    match t.playlist[i]
    case Inf(d) => (AddSegment(t, i, d, marks), marks.(discontinuity := false))
    case MediaSequence(n) => (t.(indexFirst := n), marks)
    case l => (t.(live := LiveAfter(l, t.live)), ReadMark(l, marks))
  }

  lemma {:induction false} IndexStep(t: Track, i: nat, marks: Marks)
    requires i < |t.playlist|
    ensures var (u, marks') := IndexLine(t, i, marks);
            u.playlist == t.playlist && IndexFrom(t, i, marks) == IndexFrom(u, i + 1, marks')
  {
  }

  /** Nothing but the index, what is derived from it and the kind of the stream changed. */
  predicate SameButIndexed(t: Track, u: Track) {
    u == t.(index := u.index, indexFirst := u.indexFirst, discontinuities := u.discontinuities,
            duration := u.duration, live := u.live)
  }

  lemma {:induction false} IndexLineKeeps(t: Track, i: nat, marks: Marks)
    requires i < |t.playlist|
    ensures SameButIndexed(t, IndexLine(t, i, marks).0)
  {
    hide ReadMark, LiveAfter;
  }

  lemma {:induction false} IndexedNothing(t: Track, marks: Marks)
    ensures IndexFrom(t, |t.playlist|, marks) == t
  {
  }

  /** Adding lines to the index moves nothing else. */
  lemma {:induction false} IndexFromKeeps(t: Track, i: nat, marks: Marks)
    requires i <= |t.playlist|
    ensures SameButIndexed(t, IndexFrom(t, i, marks))
    decreases |t.playlist| - i
  {
    hide IndexFrom, IndexLine;
    if i < |t.playlist| {
      IndexStep(t, i, marks);
      IndexLineKeeps(t, i, marks);
      var (u, marks') := IndexLine(t, i, marks);
      IndexFromKeeps(u, i + 1, marks');
    } else {
      IndexedNothing(t, marks);
    }
  }

  /** Indexing starts the search anew, forgets the section held, and moves nothing of the cursor. */
  lemma {:induction false} IndexKeeps(t: Track, isRefresh: bool)
    ensures var u := IndexPlaylist(t, isRefresh);
            && u == t.(index := u.index, indexFirst := u.indexFirst, discontinuities := u.discontinuities,
                       duration := u.duration, live := u.live, initFragment := None, currentIdx := -1,
                       culledSeconds := u.culledSeconds)
            && (!HasHeader(t.playlist) ==> u.index == [] && u.duration == 0.0)
  {
    hide IndexFrom;
    if HasHeader(t.playlist) {
      IndexFromKeeps(FlushIndex(t), 1, Marks(None, false));
    }
  }

  /** A refresh whose download produced the given lines; no lines means the download failed
      and the previous playlist is restored.  A playlist without duration leaves fragmentURI
      pointing into the released one. */
  function Refresh(t: Track, lines: seq<Line>): (r: Track)
    ensures t.WellFormed() && (|lines| == 0 || r.duration > 0.0) ==> r.WellFormed()
  {
    if |lines| == 0 then t
    else
      var u := IndexPlaylist(t.(playlist := lines), true);
      if u.duration <= 0.0 then u
      else if u.live then Find(u, 0, 0, None)
      else u.(fragmentURI := 0, playlistPosition := -1.0)
  }

  // ----- The fetch loop: FetchFragmentHelper, FetchFragment, RunFetchLoop -------------------

  /** How a segment download ended; RampedDown: failed, and a lower profile was selected. */
  datatype Outcome = Fetched | Failed | RampedDown

  /** The cursor part of FetchFragmentHelper at normal speed. */
  function SelectFragment(t: Track): (r: Track)
    requires t.WellFormed()
    ensures r.WellFormed() && r.playlist == t.playlist
  {
    var u := NextFragment(t);
    if u.fragmentURI != -1 then
      if u.injectInit then u else u.(playTarget := u.playlistPosition + u.fragmentDuration)
    else if (!u.live || u.reachedEndList) && u.playlistPosition != -1.0 then u.(eosReached := true)
    else u
  }

  /** A segment is requested unless an initialization section has to go first. */
  predicate Requests(r: Track) {
    r.fragmentURI != -1 && !r.injectInit
  }

  /** What a download leaves; one that fails forgets the node presented, and a lower profile that was
      selected takes the target back by a step and needs its initialization section. */
  function AfterDownload(u: Track, step: real, outcome: Outcome): Track {
    match outcome
    case Fetched => u
    case Failed => u.(lastIFrameTarget := -1.0)
    case RampedDown => u.(lastIFrameTarget := -1.0, playTarget := u.playTarget - step, injectInit := true)
  }

  function FetchFragment(t: Track, outcome: Outcome): Track
    requires t.WellFormed()
  {
    var u := SelectFragment(t);
    if Requests(u) then AfterDownload(u, u.fragmentDuration, outcome) else u
  }

  /** The pending initialization section is fetched, dropped when none is known, or kept. */
  function ServeInit(t: Track, initFetched: bool): Track {
    if t.injectInit && (t.initFragment.None? || initFetched) then t.(injectInit := false) else t
  }

  /** One turn of the fetch loop without its refresh. */
  function LoopTurn(t: Track, initFetched: bool, outcome: Outcome): Track
    requires t.WellFormed()
  {
    var u := ServeInit(t, initFetched);
    if u.injectInit then u else FetchFragment(u, outcome)
  }
}
