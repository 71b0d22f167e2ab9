/** Playlists for every window of every broadcast, sessions that start on them, and the inputs at
    which continuity, culled time and the subtitle's synchronization fail. */
module Sessions {
  import opened Common
  import opened Playlist
  import opened TrackModel
  import opened WindowScan
  import opened LiveRun
  import opened LiveGaps
  import opened TrackSync
  import Timeline

  // ----- Every window has a playlist -----------------------------------------------------------

  function Segments(b: Broadcast, first: int, n: nat): (r: seq<Line>)
    ensures |r| == 2 * n
  {
    if n == 0 then [] else Segments(b, first, n - 1) + [Inf(b.duration(first + n - 1)), Uri("segment")]
  }

  function Listing(b: Broadcast, first: int, n: nat): seq<Line> {
    [M3U, MediaSequence(first)] + Segments(b, first, n)
  }

  function WindowOf(first: int, n: nat): Window {
    Window(first, 1, seq(n, j requires 0 <= j < n => 2 + 2 * j), seq(n, j requires 0 <= j < n => 3 + 2 * j))
  }

  lemma {:induction false} SegmentAt(b: Broadcast, first: int, n: nat, j: nat)
    requires j < n
    ensures Segments(b, first, n)[2 * j] == Inf(b.duration(first + j)) &&
              Segments(b, first, n)[2 * j + 1].Uri?
  {
    if j < n - 1 {
      SegmentAt(b, first, n - 1, j);
    }
  }

  lemma {:induction false} ListingAt(b: Broadcast, first: int, n: nat, tail: seq<Line>, j: nat)
    requires j < n
    ensures IsSegment(Listing(b, first, n) + tail, WindowOf(first, n), b, j)
  {
    SegmentAt(b, first, n, j);
    hide Segments;
    var lines, w := Listing(b, first, n) + tail, WindowOf(first, n);
    assert lines[2 + 2 * j] == Segments(b, first, n)[2 * j] && lines[3 + 2 * j] == Segments(b, first, n)[2 * j + 1];
    assert w.Entry(j) == w.infAt[j] == 2 + 2 * j && w.uriAt[j] == 3 + 2 * j;
  }

  /** The segments first, ..., first+n-1 of any broadcast have a playlist, whatever plain lines follow. */
  lemma {:induction false} ListingIsWindow(b: Broadcast, first: int, n: nat, tail: seq<Line>)
    requires n > 0 && AllPlain(tail, 0, |tail|)
    ensures IsWindow(Listing(b, first, n) + tail, WindowOf(first, n), b)
  {
    hide Segments, IsSegment;
    var lines, w := Listing(b, first, n) + tail, WindowOf(first, n);
    assert lines[0] == M3U && lines[1] == MediaSequence(first);
    forall j | 0 <= j < n ensures IsSegment(lines, w, b, j) {
      ListingAt(b, first, n, tail, j);
    }
    assert w.Entry(n) == 2 + 2 * n;
    forall i | 2 + 2 * n <= i < |lines| ensures Plain(lines[i]) {
      assert lines[i] == tail[i - 2 - 2 * n];
    }
  }

  lemma {:induction false} SegmentsStayLive(b: Broadcast, first: int, n: nat)
    ensures StaysLive(Segments(b, first, n))
  {
    if n > 0 {
      SegmentsStayLive(b, first, n - 1);
    }
  }

  lemma {:induction false} ListingStaysLive(b: Broadcast, first: int, n: nat)
    ensures StaysLive(Listing(b, first, n) + [])
  {
    hide Segments;
    SegmentsStayLive(b, first, n);
  }

  // ----- A session -----------------------------------------------------------------------------

  /** The session of a live window of n segments, at its beginning. */
  function Session(b: Broadcast, first: int, n: nat): Track {
    Align(IndexPlaylist(NewTrack(Listing(b, first, n) + [], 0.0), false))
  }

  lemma {:induction false} SessionInStep(b: Broadcast, first: int, n: nat)
    requires n > 0 && Positive(b)
    ensures var t := Session(b, first, n);
            InStep(t, WindowOf(first, n), b, first) && t.WellFormed() && Pending(t) && Current(t) == first
  {
    hide IndexPlaylist, Align, InStep, IsWindow, Segments;
    var t := NewTrack(Listing(b, first, n) + [], 0.0);
    ListingIsWindow(b, first, n, []);
    ListingStaysLive(b, first, n);
    SessionStarts(t, WindowOf(first, n), b, first);
    PointsInside(Session(b, first, n), WindowOf(first, n), b, first);
  }

  /** The session after its first segment was handed out. */
  function Played(b: Broadcast, first: int, n: nat): Track {
    Apply(Session(b, first, n), Turn(true, Fetched))
  }

  lemma {:induction false} PlayedInStep(b: Broadcast, first: int, n: nat)
    requires n > 0 && Positive(b)
    ensures var t := Played(b, first, n);
            && InStep(t, WindowOf(first, n), b, first) && t.WellFormed() && !Pending(t) && Current(t) == first
            && t.culledSeconds == 0.0
  {
    hide IndexPlaylist, Align, OnAir, Session, Segments;
    var t, w := Session(b, first, n), WindowOf(first, n);
    SessionInStep(b, first, n);
    PointsInside(t, w, b, first);
    LiveTurn(t, w, b, first, true, Fetched);
    PointsInside(Played(b, first, n), w, b, first);
    if t.fragmentURI != -1 {
      NextPending(ServeInit(t, true));
    }
  }

  // ----- Inputs at which properties fail, and at which they hold -----------------------------------

  /** Segments of two seconds. */
  const STEADY := Broadcast(n => 2.0)

  /** Segments of two seconds, but for number 10, which takes ten. */
  const UNEVEN := Broadcast(n => if n == 10 then 10.0 else 2.0)

  /** Segment 10 was played and the window moved on to 12: segment 12 is stepped over, and with a long
      segment 10 segment 13 is, too; had segment 10 been due still, 12 would be next. */
  lemma {:induction false} GapLosesSegments()
    ensures var t, lines, w := Played(STEADY, 10, 3), Listing(STEADY, 12, 3) + [], WindowOf(12, 3);
            Refresh(t, lines).WellFormed() && NextFragment(Refresh(t, lines)).fragmentURI == w.uriAt[1]
    ensures var t, lines, w := Played(UNEVEN, 10, 3), Listing(UNEVEN, 12, 3) + [], WindowOf(12, 3);
            Refresh(t, lines).WellFormed() && NextFragment(Refresh(t, lines)).fragmentURI !in {w.uriAt[0], w.uriAt[1]}
    ensures var t, lines, w := Session(STEADY, 10, 3), Listing(STEADY, 12, 3) + [], WindowOf(12, 3);
            Refresh(t, lines).WellFormed() && NextFragment(Refresh(t, lines)).fragmentURI == w.uriAt[0]
  {
    hide Refresh, NextFragment, Listing, Session, Played, IsWindow, InStep;
    var w, w' := WindowOf(10, 3), WindowOf(12, 3);
    ListingIsWindow(STEADY, 12, 3, []);
    ListingStaysLive(STEADY, 12, 3);
    ListingIsWindow(UNEVEN, 12, 3, []);
    ListingStaysLive(UNEVEN, 12, 3);
    PlayedInStep(STEADY, 10, 3);
    PlayedInStep(UNEVEN, 10, 3);
    SessionInStep(STEADY, 10, 3);
    GapOutcome(Played(STEADY, 10, 3), w, STEADY, 10, Listing(STEADY, 12, 3) + [], w');
    GapOutcome(Played(UNEVEN, 10, 3), w, UNEVEN, 10, Listing(UNEVEN, 12, 3) + [], w');
    GapOutcome(Session(STEADY, 10, 3), w, STEADY, 10, Listing(STEADY, 12, 3) + [], w');
  }

  /** Segment 10 was played: of a window that moved on to 13 only its own two seconds are counted as
      culled, of one that moved on to 11 all of them are. */
  lemma {:induction false} CulledTooLittle()
    ensures var t := Played(STEADY, 10, 3);
            IndexPlaylist(t.(playlist := Listing(STEADY, 13, 3) + []), true).culledSeconds - t.culledSeconds !=
              Span(STEADY, 10, 13)
    ensures var t := Played(STEADY, 10, 3);
            IndexPlaylist(t.(playlist := Listing(STEADY, 11, 3) + []), true).culledSeconds - t.culledSeconds ==
              Span(STEADY, 10, 11)
  {
    hide IndexPlaylist, Listing, Played, IsWindow;
    PlayedInStep(STEADY, 10, 3);
    ListingIsWindow(STEADY, 13, 3, []);
    ListingIsWindow(STEADY, 11, 3, []);
    Timeline.CulledExactly(Played(STEADY, 10, 3), WindowOf(10, 3), STEADY, Listing(STEADY, 13, 3) + [],
                           WindowOf(13, 3));
    Timeline.CulledExactly(Played(STEADY, 10, 3), WindowOf(10, 3), STEADY, Listing(STEADY, 11, 3) + [],
                           WindowOf(11, 3));
  }

  lemma {:induction false} LastLine(t: Track, i: nat, marks: Marks)
    requires |t.playlist| == i + 1 && t.playlist[i] == EndList
    ensures !IndexFrom(t, i, marks).live
  {
  }

  lemma {:induction false} EndListEnds(t: Track, i: nat, marks: Marks)
    requires i < |t.playlist| && t.playlist[|t.playlist| - 1] == EndList
    ensures !IndexFrom(t, i, marks).live
    decreases |t.playlist| - i
  {
    hide ReadMark, LiveAfter;
    if i == |t.playlist| - 1 {
      LastLine(t, i, marks);
    } else {
      match t.playlist[i]
      case Inf(d) => EndListEnds(AddSegment(t, i, d, marks), i + 1, marks.(discontinuity := false));
      case MediaSequence(n) => EndListEnds(t.(indexFirst := n), i + 1, marks);
      case l => EndListEnds(t.(live := LiveAfter(l, t.live)), i + 1, ReadMark(l, marks));
    }
  }

  lemma {:induction false} RefreshEnds(t: Track, b: Broadcast, first: int, n: nat)
    requires n > 0 && t.WellFormed() && Positive(b)
    ensures !Refresh(t, Listing(b, first, n) + [EndList]).live
  {
    hide IndexFrom, Segments, IsWindow;
    var lines := Listing(b, first, n) + [EndList];
    ListingIsWindow(b, first, n, [EndList]);
    assert lines[|lines| - 1] == EndList && HasHeader(lines);
    EndListEnds(FlushIndex(t.(playlist := lines)), 1, Marks(None, false));
  }

  /** Segment 10 was played and the stream ends. With nothing culled 11 is next; with segment 10 culled,
      which is as long as 11, it is not. */
  lemma {:induction false} RestartLosesSegment()
    ensures var t, lines, w := Played(STEADY, 10, 3), Listing(STEADY, 11, 3) + [EndList], WindowOf(11, 3);
            Refresh(t, lines).WellFormed() && NextFragment(Refresh(t, lines)).fragmentURI != w.uriAt[0]
    ensures var t, lines, w := Played(STEADY, 10, 3), Listing(STEADY, 10, 3) + [EndList], WindowOf(10, 3);
            Refresh(t, lines).WellFormed() && NextFragment(Refresh(t, lines)).fragmentURI == w.uriAt[1]
  {
    hide Refresh, NextFragment, Listing, Played, IsWindow, InStep;
    var t := Played(STEADY, 10, 3);
    PlayedInStep(STEADY, 10, 3);
    ListingIsWindow(STEADY, 11, 3, [EndList]);
    ListingIsWindow(STEADY, 10, 3, [EndList]);
    RefreshEnds(t, STEADY, 11, 3);
    RefreshEnds(t, STEADY, 10, 3);
    RestartContinuity(t, WindowOf(10, 3), STEADY, 10, Listing(STEADY, 11, 3) + [EndList], WindowOf(11, 3));
    RestartContinuity(t, WindowOf(10, 3), STEADY, 10, Listing(STEADY, 10, 3) + [EndList], WindowOf(10, 3));
    assert Span(STEADY, 10, 11) == 2.0;
  }

  /** A track at the beginning of a window of ten segments. */
  function Fresh10(first: int): Track {
    NewTrack(Listing(STEADY, first, 10) + [], 0.0)
  }

  lemma {:induction false} FreshStands(first: int)
    ensures Fresh10(first).WellFormed() && Current(Align(Fresh10(first))) == first
    ensures StandsAt(Align(Fresh10(first)), WindowOf(first, 10), STEADY, first)
  {
    hide Align, IsWindow, Segments;
    ListingIsWindow(STEADY, first, 10, []);
    AlignStands(Fresh10(first), WindowOf(first, 10), STEADY, first);
    StandsOnNumber(Align(Fresh10(first)), WindowOf(first, 10), STEADY, first);
  }

  /** Audio, video and subtitle that stand on the given numbers, with windows of ten segments. */
  function Synchronized(a: int, v: int, s: int): Synced
    requires Fresh10(a).WellFormed() && Fresh10(v).WellFormed() && Fresh10(s).WellFormed()
  {
    SyncTracks(Fresh10(a), Fresh10(v), Fresh10(s), true, false, false)
  }

  lemma {:induction false} SubtitleAt(a: int, v: int, s: int)
    requires Abs(a - v) < 10
    ensures Fresh10(a).WellFormed() && Fresh10(v).WellFormed() && Fresh10(s).WellFormed()
    ensures var r := Synchronized(a, v, s);
            Current(r.subtitle) == Current(r.audio) <==> (a >= v && 0 <= a - s < 10) || (a < v && s == v)
  {
    hide Align, SyncTracks, StandsAt, Fresh10;
    FreshStands(a);
    FreshStands(v);
    FreshStands(s);
    SubtitleMeets(Fresh10(a), Fresh10(v), Fresh10(s), WindowOf(a, 10), STEADY, WindowOf(v, 10), STEADY,
                  WindowOf(s, 10), STEADY, false);
  }

  /** Audio lags and the subtitle stays behind with it; the subtitle is ahead of an audio that does not
      lag, and stays there; audio lags and they meet, because the subtitle was with the video. */
  lemma {:induction false} SubtitleMisses()
    ensures forall n :: Fresh10(n).WellFormed()
    ensures var r := Synchronized(5, 8, 5); Current(r.subtitle) != Current(r.audio)
    ensures var r := Synchronized(8, 8, 10); Current(r.subtitle) != Current(r.audio)
    ensures var r := Synchronized(5, 8, 8); Current(r.subtitle) == Current(r.audio)
  {
    hide Synchronized, Fresh10;
    SubtitleAt(5, 8, 5);
    SubtitleAt(8, 8, 10);
    SubtitleAt(5, 8, 8);
    forall n ensures Fresh10(n).WellFormed() {
      FreshStands(n);
    }
  }
}
