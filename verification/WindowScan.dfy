/** What the three readers of a playlist (walk, find, index) do on a well-formed window. */
module WindowScan {
  import opened Common
  import opened Playlist
  import opened TrackModel

  /** u is t except for what tags between segments may set. */
  ghost predicate SameButTags(t: Track, u: Track) {
    u == t.(initFragment := u.initFragment, injectInit := u.injectInit, reachedEndList := u.reachedEndList)
  }

  /** Where the lines of segment j are. */
  lemma {:induction false} SegmentLines(lines: seq<Line>, w: Window, b: Broadcast, j: nat)
    requires IsWindow(lines, w, b) && j < w.Count()
    ensures |w.infAt| == |w.uriAt| && w.Entry(j) <= w.infAt[j] < w.uriAt[j] < |lines| &&
              w.Entry(j + 1) == w.uriAt[j] + 1
    ensures AllPlain(lines, w.Entry(j), w.infAt[j]) && lines[w.infAt[j]] == Inf(b.duration(w.first + j))
    ensures AllPlain(lines, w.infAt[j] + 1, w.uriAt[j]) && lines[w.uriAt[j]].Uri?
  {
    assert IsSegment(lines, w, b, j);
  }

  // ----- Walking --------------------------------------------------------------------------

  lemma {:induction false} ScanPlain(t: Track, i: nat, k: nat) returns (u: Track)
    requires AllPlain(t.playlist, i, k)
    ensures SameButTags(t, u) && Scan(t, i) == Scan(u, k)
    ensures StaysLive(t.playlist) ==> u.reachedEndList == t.reachedEndList
    decreases k - i
  {
    u := t;
    if i < k {
      u := ScanPlain(ReadTag(t.playlist[i], t), i + 1, k);
    }
  }

  /** The cursor after the EXTINF and the URI of a segment lasting d, tags apart. */
  function Arrive(t: Track, d: real): Track {
    CountUri(ReadTag(Inf(d), t))
  }

  lemma {:induction false} ScanSegment(t: Track, w: Window, b: Broadcast, j: nat) returns (u: Track)
    requires IsWindow(t.playlist, w, b) && j < w.Count()
    ensures SameButTags(Arrive(t, b.duration(w.first + j)), u)
    ensures StaysLive(t.playlist) ==> u.reachedEndList == t.reachedEndList
    ensures Scan(t, w.Entry(j)) == if Reached(u) then u.(fragmentURI := w.uriAt[j]) else Scan(u, w.Entry(j + 1))
  {
    hide IsWindow, IsSegment, AllPlain, StaysLive, Reached;
    SegmentLines(t.playlist, w, b, j);
    var t1 := ScanPlain(t, w.Entry(j), w.infAt[j]);
    var t2 := ReadTag(Inf(b.duration(w.first + j)), t1);
    assert Scan(t1, w.infAt[j]) == Scan(t2, w.infAt[j] + 1);
    var t3 := ScanPlain(t2, w.infAt[j] + 1, w.uriAt[j]);
    u := CountUri(t3);
  }

  lemma {:induction false} ScanEnd(t: Track, w: Window, b: Broadcast) returns (u: Track)
    requires IsWindow(t.playlist, w, b)
    ensures SameButTags(t, u)
    ensures StaysLive(t.playlist) ==> u.reachedEndList == t.reachedEndList
    ensures Scan(t, w.Entry(w.Count())) == u.(fragmentURI := -1)
  {
    u := ScanPlain(t, w.Entry(w.Count()), |t.playlist|);
  }

  // ----- Finding ----------------------------------------------------------------------------

  lemma {:induction false} FindPlain(t: Track, i: nat, k: nat, seqNo: int, init: Option<string>)
    returns (init': Option<string>)
    requires AllPlain(t.playlist, i, k)
    ensures Find(t, i, seqNo, init) == Find(t, k, seqNo, init')
    decreases k - i
  {
    init' := init;
    if i < k {
      init' := FindPlain(t, i + 1, k, seqNo, if t.playlist[i].Map? then Some(t.playlist[i].init) else init);
    }
  }

  lemma {:induction false} FindSegment(t: Track, w: Window, b: Broadcast, j: nat, seqNo: int, init: Option<string>)
    returns (init': Option<string>)
    requires IsWindow(t.playlist, w, b) && j < w.Count()
    ensures var u := t.(fragmentDuration := b.duration(w.first + j));
            Find(t, w.Entry(j), seqNo, init) ==
            if seqNo >= t.nextMediaSequenceNumber - 1 then Found(u, w.uriAt[j], seqNo, init')
            else Find(u, w.Entry(j + 1), seqNo + 1, init')
  {
    hide IsWindow, IsSegment, AllPlain;
    SegmentLines(t.playlist, w, b, j);
    var init1 := FindPlain(t, w.Entry(j), w.infAt[j], seqNo, init);
    var u := t.(fragmentDuration := b.duration(w.first + j));
    assert Find(t, w.infAt[j], seqNo, init1) == Find(u, w.infAt[j] + 1, seqNo, init1);
    init' := FindPlain(u, w.infAt[j] + 1, w.uriAt[j], seqNo, init1);
  }

  /** r is t standing on segment n of the window. */
  ghost predicate StandsOn(t: Track, r: Track, w: Window, b: Broadcast, n: int)
    requires w.Has(n)
  {
    r == t.(fragmentURI := w.uriAt[n - w.first], fragmentDuration := b.duration(n),
            nextMediaSequenceNumber := n + 1, initFragment := r.initFragment)
  }

  /** r is t past the end of the window. */
  ghost predicate StandsNowhere(t: Track, r: Track, w: Window, b: Broadcast) {
    r == t.(fragmentURI := -1, fragmentDuration := b.duration(w.Last()))
  }

  /** From the entry of segment j, the find stops at the first segment numbered want or later. */
  lemma {:induction false} FindFrom(t: Track, w: Window, b: Broadcast, j: nat, init: Option<string>)
    requires IsWindow(t.playlist, w, b) && j <= w.Count()
    requires j == w.Count() ==> t.fragmentDuration == b.duration(w.Last())
    ensures var n := Max(t.nextMediaSequenceNumber - 1, w.first + j);
            var r := Find(t, w.Entry(j), w.first + j, init);
            if n <= w.Last() then StandsOn(t, r, w, b, n) else StandsNowhere(t, r, w, b)
    decreases w.Count() - j
  {
    hide IsSegment;
    if j == w.Count() {
      var init' := FindPlain(t, w.Entry(j), |t.playlist|, w.first + j, init);
    } else {
      var init' := FindSegment(t, w, b, j, w.first + j, init);
      if t.nextMediaSequenceNumber - 1 > w.first + j {
        FindFrom(t.(fragmentDuration := b.duration(w.first + j)), w, b, j + 1, init');
      }
    }
  }

  /** FindMediaForSequenceNumber lands on the wanted segment, on the first one if the window has
      moved past it, and nowhere if the window ends before it. */
  lemma {:induction false} FindInWindow(t: Track, w: Window, b: Broadcast)
    requires IsWindow(t.playlist, w, b)
    ensures var n := Max(t.nextMediaSequenceNumber - 1, w.first);
            var r := Find(t, 0, 0, None);
            if n <= w.Last() then StandsOn(t, r, w, b, n) else StandsNowhere(t, r, w, b)
  {
    var init := FindPlain(t, 0, w.sequenceAt, 0, None);
    assert Find(t, w.sequenceAt, 0, init) == Find(t, w.Entry(0), w.first, init);
    FindFrom(t, w, b, 0, init);
  }

  // ----- Indexing ---------------------------------------------------------------------------

  /** The index lists the first n segments of w with their completion times. */
  ghost predicate IndexedUpTo(t: Track, w: Window, b: Broadcast, n: nat) {
    t.duration == Span(b, w.first, w.first + n) && Lists(t.index, w, b, n)
  }

  ghost predicate Lists(index: seq<IndexNode>, w: Window, b: Broadcast, n: nat) {
    && |index| == n <= w.Count() && |w.infAt| == |w.uriAt|
    && forall k :: 0 <= k < n ==> index[k].completion == Span(b, w.first, w.first + k + 1) &&
                                  index[k].info == w.infAt[k]
  }

  /** The index held is that of the whole window w. */
  ghost predicate Indexed(index: seq<IndexNode>, indexFirst: int, w: Window, b: Broadcast) {
    Lists(index, w, b, w.Count()) && indexFirst == w.first
  }

  ghost predicate SameButIndex(t: Track, u: Track) {
    u == t.(index := u.index, discontinuities := u.discontinuities, duration := u.duration, live := u.live)
  }

  lemma {:induction false} IndexPlain(t: Track, i: nat, k: nat, marks: Marks) returns (u: Track, marks': Marks)
    requires AllPlain(t.playlist, i, k)
    ensures u == t.(live := u.live) && (StaysLive(t.playlist) && t.live ==> u.live)
    ensures IndexFrom(t, i, marks) == IndexFrom(u, k, marks')
    decreases k - i
  {
    u, marks' := t, marks;
    if i < k {
      var l := t.playlist[i];
      u, marks' := IndexPlain(t.(live := LiveAfter(l, t.live)), i + 1, k, ReadMark(l, marks));
    }
  }

  lemma {:induction false} IndexSegment(t: Track, w: Window, b: Broadcast, j: nat, marks: Marks)
    returns (u: Track, marks': Marks)
    requires IsWindow(t.playlist, w, b) && j < w.Count() && IndexedUpTo(t, w, b, j)
    ensures SameButIndex(t, u) && IndexedUpTo(u, w, b, j + 1) && (StaysLive(t.playlist) && t.live ==> u.live)
    ensures IndexFrom(t, w.Entry(j), marks) == IndexFrom(u, w.Entry(j + 1), marks')
  {
    hide IsWindow, IsSegment, AllPlain, StaysLive;
    SegmentLines(t.playlist, w, b, j);
    var t1, marks1 := IndexPlain(t, w.Entry(j), w.infAt[j], marks);
    var t2 := AddSegment(t1, w.infAt[j], b.duration(w.first + j), marks1);
    assert IndexFrom(t1, w.infAt[j], marks1) == IndexFrom(t2, w.infAt[j] + 1, marks1.(discontinuity := false));
    assert IndexedUpTo(t2, w, b, j + 1);
    u, marks' := IndexPlain(t2, w.infAt[j] + 1, w.uriAt[j], marks1.(discontinuity := false));
  }

  lemma {:induction false} IndexSegments(t: Track, w: Window, b: Broadcast, j: nat, marks: Marks)
    requires IsWindow(t.playlist, w, b) && j <= w.Count() && IndexedUpTo(t, w, b, j)
    ensures var r := IndexFrom(t, w.Entry(j), marks);
            IndexedUpTo(r, w, b, w.Count()) && SameButIndex(t, r) && (StaysLive(t.playlist) && t.live ==> r.live)
    decreases w.Count() - j
  {
    if j == w.Count() {
      var u, marks' := IndexPlain(t, w.Entry(j), |t.playlist|, marks);
    } else {
      var u, marks' := IndexSegment(t, w, b, j, marks);
      IndexSegments(u, w, b, j + 1, marks');
    }
  }

  /** Indexing a window of the broadcast yields its completion times as partial sums. */
  lemma {:induction false} IndexWindow(t: Track, w: Window, b: Broadcast)
    requires IsWindow(t.playlist, w, b)
    ensures var r := IndexFrom(FlushIndex(t), 1, Marks(None, false));
            && Indexed(r.index, r.indexFirst, w, b) && r.duration == Span(b, w.first, w.Last() + 1)
            && (StaysLive(t.playlist) && t.live ==> r.live)
            && r == FlushIndex(t).(index := r.index, discontinuities := r.discontinuities, duration := r.duration,
                                   live := r.live, indexFirst := w.first)
  {
    var u, marks := IndexPlain(FlushIndex(t), 1, w.sequenceAt, Marks(None, false));
    var v := u.(indexFirst := w.first);
    assert IndexFrom(u, w.sequenceAt, marks) == IndexFrom(v, w.Entry(0), marks);
    IndexSegments(v, w, b, 0, marks);
  }

  lemma {:induction false} CompletionInWindow(t: Track, w: Window, b: Broadcast, n: int)
    requires Indexed(t.index, t.indexFirst, w, b) && w.Count() > 0
    ensures CompletionTime(t, n) ==
            if n < w.first then 0.0 else if n > w.Last() then Span(b, w.first, w.Last() + 1)
                else Span(b, w.first, n + 1)
  {
  }

  /** The completion time of segment n in a window from first to last, as the program clips it. */
  ghost function Clipped(b: Broadcast, first: int, last: int, n: int): real {
    if n < first then 0.0 else Span(b, first, (if n > last then last else n) + 1)
  }

  ghost function Excess(before: real, after: real): real {
    if before > after then before - after else 0.0
  }

  /** Indexing a refreshed window: what the last played segment moved by is added to the culled time. */
  lemma {:induction false} IndexRefreshed(t: Track, w: Window, b: Broadcast, w': Window)
    requires Indexed(t.index, t.indexFirst, w, b) && w.Has(t.nextMediaSequenceNumber - 1) && IsWindow(t.playlist, w', b)
    ensures var u, played := IndexPlaylist(t, true), t.nextMediaSequenceNumber - 1;
            && Indexed(u.index, u.indexFirst, w', b) && u.duration == Span(b, w'.first, w'.Last() + 1)
            && (StaysLive(t.playlist) && t.live ==> u.live)
            && u == t.(index := u.index, indexFirst := u.indexFirst, discontinuities := u.discontinuities,
                       live := u.live,
                       duration := u.duration, initFragment := None, currentIdx := -1,
                       culledSeconds := t.culledSeconds +
                         Excess(Span(b, w.first, played + 1), Clipped(b, w'.first, w'.Last(), played)))
  {
    hide StaysLive, IndexFrom, CompletionTime, Indexed, IsWindow;
    HasSegments(t.playlist, w', b);
    var r := IndexFrom(FlushIndex(t), 1, Marks(None, false));
    IndexWindow(t, w', b);
    CompletionInWindow(t, w, b, t.nextMediaSequenceNumber - 1);
    CompletionInWindow(r, w', b, t.nextMediaSequenceNumber - 1);
  }

  lemma {:induction false} HasSegments(lines: seq<Line>, w: Window, b: Broadcast)
    requires IsWindow(lines, w, b)
    ensures HasHeader(lines) && w.Count() > 0
  {
  }
}
